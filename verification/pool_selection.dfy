// Which pools of registered slots may execute a dispatch request, and in which order they are tried.
//
// Identifiers are numbers in the order the host's locale compares them.
module PoolSelection {
  import opened Options
  import opened KeyedSort

  datatype Route = JobRoute | HostRoute

  datatype Review = Review(product: string, git: bool)

  datatype Request = Request(
    userId: string, action: string, productId: string, runtime: Option<string>, write: bool, publish: string,
    environmentKeys: seq<string>, repository: Option<string>, reviews: seq<Review>)

  datatype Profile = Profile(
    id: int, owner: string, revoked: bool, protocol: string, products: set<string>, actions: set<string>, runtime: string, write: bool,
    publishModes: set<string>, environmentKeys: set<string>, repositoryProducts: set<string>)

  datatype Slot = Slot(
    id: int, route: Route, owner: string, enabled: bool, incarnation: Option<string>, signedOff: bool,
    profiles: set<int>, incarnationProfiles: set<int>, lastSeen: Option<int>, workerSeen: Option<int>,
    runtime: string, products: set<string>, capabilities: seq<string>, tier: Option<string>,
    currentRuntime: Option<string>, currentProducts: set<string>, currentCapabilities: seq<string>,
    quotaPct: Option<int>, minQuotaPct: int, lastReserved: Option<int>,
    busy: bool, openReservation: bool, liveJob: bool, ordinaryClaim: bool)

  datatype Pool = Pool(route: Route, profile: int, slots: seq<int>, load: real, lastReserved: int)

  const JOB_SEEN_MS := 30_000
  const HOST_SEEN_MS := 45_000

  function TierPriority(tier: Option<string>): int {
    if tier == Some("HIGH_P") then 3 else if tier == Some("MEDIUM_P") then 2 else if tier == Some("LOW_P") then 1 else 0
  }

  /* ---- what a profile and a slot must satisfy ---- */

  predicate Admits(p: Profile, r: Request) {
    && !p.revoked && p.owner == r.userId && p.protocol == "dispatch-v1"
    && r.productId in p.products && r.action in p.actions
    && (r.runtime.Some? ==> r.runtime.value == p.runtime) && (r.write ==> p.write) && r.publish in p.publishModes
    && (forall i :: 0 <= i < |r.environmentKeys| ==> r.environmentKeys[i] in p.environmentKeys)
    && (r.repository.Some? ==> r.repository.value in p.repositoryProducts)
    && (forall i :: 0 <= i < |r.reviews| ==> r.reviews[i].product in p.products && (r.reviews[i].git ==> r.reviews[i].product in p.repositoryProducts))
  }

  function JobKind(r: Request): string { if r.action == "review" then "QUEUE_REVIEW" else if r.action == "task_implementation" then "TASK_IMPLEMENTATION" else "QUEUE_TASK" }

  function Required(r: Request): Option<string> { if r.action == "review" then Some("review") else if r.write then Some("code_edit") else None }

  // The managed claim predicates, for one reading of the slot's runtime, products and capabilities.
  predicate Claimable(r: Request, p: Profile, s: Slot, runtime: string, products: set<string>, capabilities: seq<string>) {
    && s.owner == r.userId && r.productId in products && p.runtime == runtime
    && s.incarnation.Some? && s.incarnation.value != "" && p.id in s.incarnationProfiles
    && (if runtime == "HARNESS" then Required(r) == None && JobKind(r) == "TASK_IMPLEMENTATION"
        else !(|capabilities| == 1 && capabilities[0] in {"deploy", "docs_audit"}) && (Required(r) == None || Required(r).value in capabilities))
    && (s.quotaPct.Some? ==> s.quotaPct.value >= s.minQuotaPct)
  }

  // A slot that could execute the request now, whether or not it is free: alive, bound to the profile, and claimable both as
  // its incarnation was frozen and as its owner configures it today.
  predicate Suits(s: Slot, p: Profile, route: Route, r: Request, now: int) {
    && s.route == route && s.enabled && s.incarnation.Some? && s.incarnation.value != "" && !s.signedOff
    && p.id in s.profiles && p.id in s.incarnationProfiles
    && s.lastSeen.Some? && now - s.lastSeen.value < (if route == JobRoute then JOB_SEEN_MS else HOST_SEEN_MS)
    && (route == JobRoute ==> s.workerSeen.Some? && now - s.workerSeen.value < JOB_SEEN_MS)
    && s.currentRuntime == Some(s.runtime)
    && Claimable(r, p, s, s.runtime, s.products * s.currentProducts, s.capabilities)
    && Claimable(r, p, s, if s.currentRuntime.Some? then s.currentRuntime.value else "", s.currentProducts, s.currentCapabilities)
  }

  predicate Free(s: Slot) { !s.busy && !s.openReservation && !s.liveJob && !s.ordinaryClaim }

  /* ---- the selection as a function ---- */

  function Suitable(slots: seq<Slot>, p: Profile, route: Route, r: Request, now: int): seq<Slot> {
    if |slots| == 0 then []
    else Suitable(slots[..|slots| - 1], p, route, r, now) + if Suits(slots[|slots| - 1], p, route, r, now) then [slots[|slots| - 1]] else []
  }

  function FreeOnes(slots: seq<Slot>): seq<Slot> {
    if |slots| == 0 then [] else FreeOnes(slots[..|slots| - 1]) + if Free(slots[|slots| - 1]) then [slots[|slots| - 1]] else []
  }

  // A map by id: a later slot with the same id takes the earlier one's place.
  function Put(distinct: seq<Slot>, s: Slot): seq<Slot> {
    if |distinct| == 0 then [s] else if distinct[0].id == s.id then [s] + distinct[1..] else [distinct[0]] + Put(distinct[1..], s)
  }

  function Distinct(slots: seq<Slot>): seq<Slot> {
    if |slots| == 0 then [] else Put(Distinct(slots[..|slots| - 1]), slots[|slots| - 1])
  }

  function SlotKeys(slots: seq<Slot>): (keyed: seq<Keyed<int>>)
    ensures |keyed| == |slots|
  {
    seq(|slots|, i requires 0 <= i < |slots| => SlotKey(slots[i]))
  }

  function SlotKey(s: Slot): Keyed<int> { Keyed([-TierPriority(s.tier) as real, s.id as real], s.id) }

  function Items<T>(keyed: seq<Keyed<T>>): (items: seq<T>)
    ensures |items| == |keyed|
  {
    seq(|keyed|, i requires 0 <= i < |keyed| => keyed[i].item)
  }

  function Latest(slots: seq<Slot>): (latest: int)
    ensures latest >= 0
  {
    if |slots| == 0 then 0
    else
      var before, last := Latest(slots[..|slots| - 1]), slots[|slots| - 1].lastReserved;
      if last.Some? && last.value > before then last.value else before
  }

  function PoolOf(p: Profile, route: Route, r: Request, slots: seq<Slot>, now: int): Option<Pool> {
    var suitable := Distinct(Suitable(slots, p, route, r, now));
    var free := FreeOnes(suitable);
    if |free| == 0 || |suitable| == 0 then None
    else Some(Pool(route, p.id, Items(Sort(SlotKeys(free))), (|suitable| - |free|) as real / |suitable| as real, Latest(suitable)))
  }

  function PoolsOf(profiles: seq<Profile>, r: Request, slots: seq<Slot>, now: int): seq<Pool> {
    if |profiles| == 0 then []
    else PoolsOf(profiles[..|profiles| - 1], r, slots, now) + ProfilePools(profiles[|profiles| - 1], r, slots, now)
  }

  function ProfilePools(p: Profile, r: Request, slots: seq<Slot>, now: int): seq<Pool> {
    if !Admits(p, r) then [] else RoutePools(p, JobRoute, r, slots, now) + RoutePools(p, HostRoute, r, slots, now)
  }

  function RoutePools(p: Profile, route: Route, r: Request, slots: seq<Slot>, now: int): seq<Pool> {
    var pool := PoolOf(p, route, r, slots, now);
    if pool.Some? then [pool.value] else []
  }

  function PoolKey(pool: Pool): (k: Keyed<Pool>)
    ensures k.item == pool
  {
    Keyed([if pool.route == HostRoute then 1.0 else 0.0, pool.load, pool.lastReserved as real, pool.profile as real,
           if |pool.slots| > 0 then pool.slots[0] as real else 0.0], pool)
  }

  function PoolKeys(pools: seq<Pool>): (keyed: seq<Keyed<Pool>>)
    ensures |keyed| == |pools|
  {
    seq(|pools|, i requires 0 <= i < |pools| => PoolKey(pools[i]))
  }

  function Eligible(r: Request, profiles: seq<Profile>, slots: seq<Slot>, now: int): seq<Pool> {
    Items(Sort(PoolKeys(PoolsOf(profiles, r, slots, now))))
  }

  /* ---- the selection as it is computed ---- */

  method EligibleExecutors(r: Request, profiles: seq<Profile>, slots: seq<Slot>, now: int) returns (pools: seq<Pool>)
    ensures pools == Eligible(r, profiles, slots, now)
  {
    pools := [];
    for k := 0 to |profiles|
      invariant pools == PoolsOf(profiles[..k], r, slots, now)
    {
      var profile := profiles[k];
      assert profiles[..k + 1][..k] == profiles[..k];
      if Admits(profile, r) {
        var jobs := CollectPool(profile, JobRoute, r, slots, now);
        if jobs.Some? { pools := pools + [jobs.value]; }
        var hosts := CollectPool(profile, HostRoute, r, slots, now);
        if hosts.Some? { pools := pools + [hosts.value]; }
        assert pools == PoolsOf(profiles[..k], r, slots, now) + ProfilePools(profile, r, slots, now);
      }
    }
    assert profiles[..|profiles|] == profiles;
    pools := Items(Sort(PoolKeys(pools)));
  }

  method CollectSuitable(p: Profile, route: Route, r: Request, slots: seq<Slot>, now: int) returns (suitable: seq<Slot>)
    ensures suitable == Distinct(Suitable(slots, p, route, r, now))
  {
    hide Suits, Put;
    suitable := [];
    for k := 0 to |slots|
      invariant suitable == Distinct(Suitable(slots[..k], p, route, r, now))
    {
      assert slots[..k + 1][..k] == slots[..k];
      var before := Suitable(slots[..k], p, route, r, now);
      assert (before + [slots[k]])[..|before|] == before && before + [] == before;
      if Suits(slots[k], p, route, r, now) { suitable := Put(suitable, slots[k]); }
    }
    assert slots[..|slots|] == slots;
  }

  method CollectFree(suitable: seq<Slot>) returns (free: seq<Slot>)
    ensures free == FreeOnes(suitable)
  {
    hide Free;
    free := [];
    for k := 0 to |suitable|
      invariant free == FreeOnes(suitable[..k])
    {
      assert suitable[..k + 1][..k] == suitable[..k];
      if Free(suitable[k]) { free := free + [suitable[k]]; }
    }
    assert suitable[..|suitable|] == suitable;
  }

  method FindLatest(suitable: seq<Slot>) returns (latest: int)
    ensures latest == Latest(suitable)
  {
    latest := 0;
    for k := 0 to |suitable|
      invariant latest == Latest(suitable[..k])
    {
      assert suitable[..k + 1][..k] == suitable[..k];
      if suitable[k].lastReserved.Some? && suitable[k].lastReserved.value > latest { latest := suitable[k].lastReserved.value; }
    }
    assert suitable[..|suitable|] == suitable;
  }

  method CollectPool(p: Profile, route: Route, r: Request, slots: seq<Slot>, now: int) returns (pool: Option<Pool>)
    ensures pool == PoolOf(p, route, r, slots, now)
  {
    var suitable := CollectSuitable(p, route, r, slots, now);
    var free := CollectFree(suitable);
    var latest := FindLatest(suitable);
    if |free| == 0 || |suitable| == 0 { return None; }
    return Some(Pool(route, p.id, Items(Sort(SlotKeys(free))), (|suitable| - |free|) as real / |suitable| as real, latest));
  }

  /* ---- distinct slots ---- */

  // A slot may be listed more than once, but an id names one slot.
  predicate OneIdOneSlot(slots: seq<Slot>) { forall i, j :: 0 <= i < |slots| && 0 <= j < |slots| && slots[i].id == slots[j].id ==> slots[i] == slots[j] }

  predicate DistinctIds(slots: seq<Slot>) { forall i, j :: 0 <= i < j < |slots| ==> slots[i].id != slots[j].id }

  function Set<T>(xs: seq<T>): set<T> { set x | x in xs }

  lemma {:induction false} SuitableMembers(slots: seq<Slot>, p: Profile, route: Route, r: Request, now: int)
    ensures forall s :: s in Suitable(slots, p, route, r, now) <==> s in slots && Suits(s, p, route, r, now)
  {
    hide Suits;
    if |slots| > 0 {
      SuitableMembers(slots[..|slots| - 1], p, route, r, now);
      assert slots == slots[..|slots| - 1] + [slots[|slots| - 1]];
    }
  }

  lemma {:induction false} FreeMembers(slots: seq<Slot>)
    ensures forall s :: s in FreeOnes(slots) <==> s in slots && Free(s)
    ensures DistinctIds(slots) ==> DistinctIds(FreeOnes(slots))
    ensures |FreeOnes(slots)| <= |slots|
  {
    hide Free;
    if |slots| > 0 {
      var before := slots[..|slots| - 1];
      FreeMembers(before);
      assert slots == before + [slots[|slots| - 1]];
      if DistinctIds(slots) {
        forall i | 0 <= i < |FreeOnes(before)| ensures FreeOnes(before)[i].id != slots[|slots| - 1].id { assert FreeOnes(before)[i] in before; }
      }
    }
  }

  lemma {:induction false} PutMembers(distinct: seq<Slot>, s: Slot)
    requires DistinctIds(distinct) && forall i :: 0 <= i < |distinct| && distinct[i].id == s.id ==> distinct[i] == s
    ensures DistinctIds(Put(distinct, s)) && forall x :: x in Put(distinct, s) <==> x in distinct || x == s
  {
    if |distinct| > 0 {
      assert distinct == [distinct[0]] + distinct[1..];
      if distinct[0].id != s.id {
        PutMembers(distinct[1..], s);
        var next := Put(distinct[1..], s);
        forall j | 0 <= j < |next| ensures next[j].id != distinct[0].id { assert next[j] in next; }
      }
    }
  }

  lemma {:induction false} DistinctMembers(slots: seq<Slot>)
    requires OneIdOneSlot(slots)
    ensures DistinctIds(Distinct(slots)) && forall x :: x in Distinct(slots) <==> x in slots
  {
    if |slots| > 0 {
      var before := slots[..|slots| - 1];
      DistinctMembers(before);
      forall i | 0 <= i < |Distinct(before)| && Distinct(before)[i].id == slots[|slots| - 1].id ensures Distinct(before)[i] == slots[|slots| - 1] {
        assert Distinct(before)[i] in before;
      }
      PutMembers(Distinct(before), slots[|slots| - 1]);
      assert slots == before + [slots[|slots| - 1]];
    }
  }

  lemma {:induction false} DistinctCount(slots: seq<Slot>)
    requires DistinctIds(slots)
    ensures |slots| == |Set(slots)|
  {
    if |slots| > 0 {
      var before, last := slots[..|slots| - 1], slots[|slots| - 1];
      DistinctCount(before);
      assert slots == before + [last];
      assert last !in before;
      assert Set(slots) == Set(before) + {last};
    }
  }

  lemma SameCount(a: seq<Slot>, b: seq<Slot>)
    requires DistinctIds(a) && DistinctIds(b) && forall s :: s in a <==> s in b
    ensures |a| == |b|
  {
    DistinctCount(a);
    DistinctCount(b);
    assert Set(a) == Set(b);
  }

  lemma {:induction false} LatestBounds(slots: seq<Slot>)
    ensures forall s :: s in slots && s.lastReserved.Some? ==> s.lastReserved.value <= Latest(slots)
    ensures Latest(slots) == 0 || exists s :: s in slots && s.lastReserved == Some(Latest(slots))
  {
    if |slots| > 0 {
      LatestBounds(slots[..|slots| - 1]);
      assert slots == slots[..|slots| - 1] + [slots[|slots| - 1]];
    }
  }

  lemma SameLatest(a: seq<Slot>, b: seq<Slot>)
    requires forall s :: s in a <==> s in b
    ensures Latest(a) == Latest(b)
  {
    LatestBounds(a);
    LatestBounds(b);
  }

  /* ---- what is listed ---- */

  // The suitable slots of a pool, each once, and the free ones among them.
  lemma PoolMembers(p: Profile, route: Route, r: Request, slots: seq<Slot>, now: int)
    requires OneIdOneSlot(slots)
    ensures var suitable := Distinct(Suitable(slots, p, route, r, now));
            && DistinctIds(suitable) && DistinctIds(FreeOnes(suitable)) && |FreeOnes(suitable)| <= |suitable|
            && (forall s :: s in suitable <==> s in slots && Suits(s, p, route, r, now))
            && (forall s :: s in FreeOnes(suitable) <==> s in slots && Suits(s, p, route, r, now) && Free(s))
  {
    hide Suits, Free;
    var suitable := Suitable(slots, p, route, r, now);
    SuitableMembers(slots, p, route, r, now);
    forall i, j | 0 <= i < |suitable| && 0 <= j < |suitable| && suitable[i].id == suitable[j].id ensures suitable[i] == suitable[j] {
      assert suitable[i] in slots && suitable[j] in slots;
    }
    DistinctMembers(suitable);
    FreeMembers(Distinct(suitable));
  }

  predicate KeyFrom(slots: seq<Slot>, k: Keyed<int>) { exists s :: s in slots && k == SlotKey(s) }

  lemma SlotKeysDistinct(slots: seq<Slot>)
    requires DistinctIds(slots)
    ensures DistinctKeys(SlotKeys(slots))
    ensures forall k :: k in SlotKeys(slots) <==> KeyFrom(slots, k)
  {
    var keyed := SlotKeys(slots);
    forall i, j | 0 <= i < j < |keyed| ensures keyed[i].key != keyed[j].key {
      assert keyed[i].key[1] == slots[i].id as real && keyed[j].key[1] == slots[j].id as real;
    }
    forall k | k in keyed ensures KeyFrom(slots, k) {
      var i :| 0 <= i < |keyed| && keyed[i] == k;
      assert slots[i] in slots && k == SlotKey(slots[i]);
    }
    forall s | s in slots ensures SlotKey(s) in keyed {
      var i :| 0 <= i < |slots| && slots[i] == s;
      assert keyed[i] == SlotKey(s);
    }
  }

  lemma SortedSlots(slots: seq<Slot>)
    requires DistinctIds(slots)
    ensures var sorted := Sort(SlotKeys(slots));
            && |sorted| == |slots| && Sorted(sorted) && DistinctKeys(sorted)
            && (forall i :: 0 <= i < |sorted| ==> KeyFrom(slots, sorted[i]))
            && (forall s :: s in slots ==> SlotKey(s) in sorted)
  {
    hide TierPriority, Le, Insert;
    var keyed := SlotKeys(slots);
    SlotKeysDistinct(slots);
    SortSorts(keyed);
    SortMembers(keyed);
    SortKeepsKeys(keyed);
    assert |Sort(keyed)| == |multiset(Sort(keyed))| == |multiset(keyed)| == |keyed|;
    forall i | 0 <= i < |Sort(keyed)| ensures KeyFrom(slots, Sort(keyed)[i]) {
      assert Sort(keyed)[i] in keyed;
    }
    forall s | s in slots ensures SlotKey(s) in Sort(keyed) { assert SlotKey(s) in keyed; }
  }

  lemma OrderedPair(slots: seq<Slot>, i: nat, j: nat, s: Slot, t: Slot)
    requires DistinctIds(slots) && i < j < |Sort(SlotKeys(slots))| && s in slots && t in slots
    requires var sorted := Sort(SlotKeys(slots)); sorted[i].item == s.id && sorted[j].item == t.id
    ensures s.id != t.id && (TierPriority(s.tier) > TierPriority(t.tier) || (TierPriority(s.tier) == TierPriority(t.tier) && s.id < t.id))
  {
    hide TierPriority, Le, Sort, SlotKeys;
    var sorted := Sort(SlotKeys(slots));
    SortedSlots(slots);
    SlotAt(slots, sorted[i], s);
    SlotAt(slots, sorted[j], t);
    assert Le(sorted[i].key, sorted[j].key) && sorted[i].key != sorted[j].key;
    LeSlots(s, t);
  }

  lemma OrderedIds(slots: seq<Slot>)
    requires DistinctIds(slots)
    ensures var ids := Items(Sort(SlotKeys(slots)));
            && |ids| == |slots| && (forall id :: id in ids <==> exists s :: s in slots && s.id == id)
            && (forall i, j :: 0 <= i < j < |ids| ==> ids[i] != ids[j])
  {
    hide TierPriority, Le, Sort, SlotKeys, Sorted, DistinctKeys;
    var sorted := Sort(SlotKeys(slots));
    SortedSlots(slots);
    var ids := Items(sorted);
    forall i | 0 <= i < |ids| ensures exists s :: s in slots && s.id == ids[i] { assert KeyFrom(slots, sorted[i]); }
    forall s | s in slots ensures s.id in ids {
      var i :| 0 <= i < |sorted| && sorted[i] == SlotKey(s);
      assert ids[i] == s.id;
    }
    forall i, j | 0 <= i < j < |ids| ensures ids[i] != ids[j] {
      assert KeyFrom(slots, sorted[i]) && KeyFrom(slots, sorted[j]);
      var s :| s in slots && sorted[i] == SlotKey(s);
      var t :| t in slots && sorted[j] == SlotKey(t);
      OrderedPair(slots, i, j, s, t);
    }
  }

  // The slots of a pool in order: every free slot once, a higher tier before a lower one, and equal tiers by id.
  lemma OrderedSlots(slots: seq<Slot>)
    requires DistinctIds(slots)
    ensures var ids := Items(Sort(SlotKeys(slots)));
            && |ids| == |slots| && (forall id :: id in ids <==> exists s :: s in slots && s.id == id)
            && (forall i, j :: 0 <= i < j < |ids| ==> ids[i] != ids[j])
            && (forall i, j, s, t :: 0 <= i < j < |ids| && s in slots && t in slots && s.id == ids[i] && t.id == ids[j] ==>
                  TierPriority(s.tier) > TierPriority(t.tier) || (TierPriority(s.tier) == TierPriority(t.tier) && s.id < t.id))
  {
    hide TierPriority, Le, Sort, SlotKeys, DistinctIds;
    OrderedIds(slots);
    var ids := Items(Sort(SlotKeys(slots)));
    forall i, j, s, t | 0 <= i < j < |ids| && s in slots && t in slots && s.id == ids[i] && t.id == ids[j]
      ensures TierPriority(s.tier) > TierPriority(t.tier) || (TierPriority(s.tier) == TierPriority(t.tier) && s.id < t.id)
    {
      OrderedPair(slots, i, j, s, t);
    }
  }

  lemma SlotAt(slots: seq<Slot>, k: Keyed<int>, s: Slot)
    requires DistinctIds(slots) && s in slots && k.item == s.id && KeyFrom(slots, k)
    ensures k == SlotKey(s)
  {
    var x :| x in slots && k == SlotKey(x);
    assert x.id == s.id;
  }

  lemma LeSlots(s: Slot, t: Slot)
    requires Le(SlotKey(s).key, SlotKey(t).key) && SlotKey(s).key != SlotKey(t).key
    ensures TierPriority(s.tier) > TierPriority(t.tier) || (TierPriority(s.tier) == TierPriority(t.tier) && s.id < t.id)
  {
    hide TierPriority;
    var a, b := SlotKey(s).key, SlotKey(t).key;
    assert a[1..] == [s.id as real] && b[1..] == [t.id as real];
    assert Le(a[1..], b[1..]) ==> a[1] <= b[1];
    assert a == [a[0], a[1]] && b == [b[0], b[1]];
  }

  /* ---- the pools ---- */

  // Profiles have pairwise different ids.
  predicate DistinctProfiles(profiles: seq<Profile>) { forall i, j :: 0 <= i < j < |profiles| ==> profiles[i].id != profiles[j].id }

  lemma {:induction false} PoolsMembers(profiles: seq<Profile>, r: Request, slots: seq<Slot>, now: int)
    ensures forall pool :: pool in PoolsOf(profiles, r, slots, now) <==>
                             exists p, route :: p in profiles && Admits(p, r) && PoolOf(p, route, r, slots, now) == Some(pool)
  {
    hide Admits, PoolOf;
    if |profiles| > 0 {
      var before, last := profiles[..|profiles| - 1], profiles[|profiles| - 1];
      PoolsMembers(before, r, slots, now);
      assert profiles == before + [last];
      forall pool | pool in PoolsOf(profiles, r, slots, now)
        ensures exists p, route :: p in profiles && Admits(p, r) && PoolOf(p, route, r, slots, now) == Some(pool)
      {
        if pool in PoolsOf(before, r, slots, now) {
          var p, route :| p in before && Admits(p, r) && PoolOf(p, route, r, slots, now) == Some(pool);
          assert p in profiles;
        } else {
          assert pool in ProfilePools(last, r, slots, now);
          assert PoolOf(last, JobRoute, r, slots, now) == Some(pool) || PoolOf(last, HostRoute, r, slots, now) == Some(pool);
        }
      }
      forall p, route, pool | p in profiles && Admits(p, r) && PoolOf(p, route, r, slots, now) == Some(pool)
        ensures pool in PoolsOf(profiles, r, slots, now)
      {
        if p in before { assert pool in PoolsOf(before, r, slots, now); } else { assert route == JobRoute || route == HostRoute; }
      }
    }
  }

  // A slot is listed for a profile and a route exactly when the profile admits the request and the slot suits it and is free.
  lemma ListsExactly(r: Request, profiles: seq<Profile>, slots: seq<Slot>, now: int, profile: int, route: Route, id: int)
    requires OneIdOneSlot(slots)
    ensures (exists pool :: pool in Eligible(r, profiles, slots, now) && pool.route == route && pool.profile == profile && id in pool.slots)
       <==> (exists p, s :: p in profiles && p.id == profile && Admits(p, r) && s in slots && s.id == id && Suits(s, p, route, r, now) && Free(s))
  {
    hide Admits, Suits, Free, PoolOf, Eligible, PoolsOf;
    EligibleMembers(r, profiles, slots, now);
    PoolsMembers(profiles, r, slots, now);
    if exists pool :: pool in Eligible(r, profiles, slots, now) && pool.route == route && pool.profile == profile && id in pool.slots {
      var pool :| pool in Eligible(r, profiles, slots, now) && pool.route == route && pool.profile == profile && id in pool.slots;
      var p, path :| p in profiles && Admits(p, r) && PoolOf(p, path, r, slots, now) == Some(pool);
      PoolLists(p, path, r, slots, now, id);
    }
    forall p, s | p in profiles && p.id == profile && Admits(p, r) && s in slots && s.id == id && Suits(s, p, route, r, now) && Free(s)
      ensures exists pool :: pool in Eligible(r, profiles, slots, now) && pool.route == route && pool.profile == profile && id in pool.slots
    {
      PoolLists(p, route, r, slots, now, id);
      assert PoolOf(p, route, r, slots, now).value in PoolsOf(profiles, r, slots, now);
    }
  }

  lemma PoolLists(p: Profile, route: Route, r: Request, slots: seq<Slot>, now: int, id: int)
    requires OneIdOneSlot(slots)
    ensures var pool := PoolOf(p, route, r, slots, now);
            && (pool.Some? ==> pool.value.route == route && pool.value.profile == p.id)
            && ((pool.Some? && id in pool.value.slots) <==> exists s :: s in slots && s.id == id && Suits(s, p, route, r, now) && Free(s))
  {
    hide Suits, Free, Sort, SlotKeys, Latest;
    PoolMembers(p, route, r, slots, now);
    var free := FreeOnes(Distinct(Suitable(slots, p, route, r, now)));
    OrderedSlots(free);
    if exists s :: s in slots && s.id == id && Suits(s, p, route, r, now) && Free(s) {
      var s :| s in slots && s.id == id && Suits(s, p, route, r, now) && Free(s);
      assert s in free;
    }
  }

  lemma EligibleMembers(r: Request, profiles: seq<Profile>, slots: seq<Slot>, now: int)
    ensures forall pool :: pool in Eligible(r, profiles, slots, now) <==> pool in PoolsOf(profiles, r, slots, now)
    ensures |Eligible(r, profiles, slots, now)| == |PoolsOf(profiles, r, slots, now)|
  {
    hide PoolsOf;
    var pools := PoolsOf(profiles, r, slots, now);
    SortedPools(pools);
  }

  lemma SortedPools(pools: seq<Pool>)
    ensures var sorted := Sort(PoolKeys(pools));
            && |sorted| == |pools| && Sorted(sorted) && (forall pool :: pool in Items(sorted) <==> pool in pools)
            && (forall i :: 0 <= i < |sorted| ==> sorted[i] == PoolKey(sorted[i].item))
  {
    hide Le, Insert, PoolKey;
    var keyed := PoolKeys(pools);
    var sorted := Sort(keyed);
    SortSorts(keyed);
    SortMembers(keyed);
    assert |sorted| == |multiset(sorted)| == |multiset(keyed)| == |keyed|;
    forall i | 0 <= i < |sorted| ensures sorted[i].item in pools && sorted[i] == PoolKey(sorted[i].item) {
      assert sorted[i] in keyed;
      KeyOfPool(pools, sorted[i]);
    }
    forall pool | pool in pools ensures pool in Items(sorted) {
      var i :| 0 <= i < |pools| && pools[i] == pool;
      KeyOfPool(pools, keyed[i]);
      assert keyed[i] in sorted;
      var j :| 0 <= j < |sorted| && sorted[j] == keyed[i];
      assert Items(sorted)[j] == pool;
    }
  }

  lemma KeyOfPool(pools: seq<Pool>, k: Keyed<Pool>)
    requires k in PoolKeys(pools)
    ensures k.item in pools && k == PoolKey(k.item)
  {
    var i :| 0 <= i < |pools| && PoolKeys(pools)[i] == k;
  }

  // Pools come job before host, then the less loaded, then the one reserved longer ago, then the lower profile.
  lemma EligibleIsOrdered(r: Request, profiles: seq<Profile>, slots: seq<Slot>, now: int, i: nat, j: nat)
    requires OneIdOneSlot(slots) && i < j < |Eligible(r, profiles, slots, now)|
    ensures var a, b := Eligible(r, profiles, slots, now)[i], Eligible(r, profiles, slots, now)[j];
            && (a.route == HostRoute ==> b.route == HostRoute) && (a.route == b.route ==> a.load <= b.load)
            && (a.route == b.route && a.load == b.load ==> a.lastReserved <= b.lastReserved)
            && (a.route == b.route && a.load == b.load && a.lastReserved == b.lastReserved ==> a.profile <= b.profile)
  {
    hide PoolsOf, Sort, PoolKeys;
    var pools := PoolsOf(profiles, r, slots, now);
    SortedPools(pools);
    var sorted := Sort(PoolKeys(pools));
    assert Le(sorted[i].key, sorted[j].key);
    LePools(sorted[i].item, sorted[j].item);
  }

  lemma LePools(a: Pool, b: Pool)
    requires Le(PoolKey(a).key, PoolKey(b).key)
    ensures (a.route == HostRoute ==> b.route == HostRoute) && (a.route == b.route ==> a.load <= b.load)
    ensures a.route == b.route && a.load == b.load ==> a.lastReserved <= b.lastReserved
    ensures a.route == b.route && a.load == b.load && a.lastReserved == b.lastReserved ==> a.profile <= b.profile
  {
    var x, y := PoolKey(a).key, PoolKey(b).key;
    LeFrom(x, y, 0);
    if a.route == b.route && a.load == b.load && a.lastReserved == b.lastReserved { LeFrom(x, y, 3); }
    else if a.route == b.route && a.load == b.load { LeFrom(x, y, 2); }
    else if a.route == b.route { LeFrom(x, y, 1); }
  }

  // Keys that agree up to a place are ordered at that place.
  lemma {:induction false} LeFrom(x: seq<real>, y: seq<real>, k: nat)
    requires |x| == |y| && k < |x| && Le(x, y) && forall i :: 0 <= i < k ==> x[i] == y[i]
    ensures x[k] <= y[k]
  {
    if k > 0 {
      assert forall i :: 0 <= i < k - 1 ==> x[1..][i] == x[i + 1] && y[1..][i] == y[i + 1];
      LeFrom(x[1..], y[1..], k - 1);
    }
  }

  // Every listed pool offers at least one slot, and its load is a share below one.
  lemma LoadIsAShare(r: Request, profiles: seq<Profile>, slots: seq<Slot>, now: int, pool: Pool)
    requires OneIdOneSlot(slots) && pool in Eligible(r, profiles, slots, now)
    ensures 0.0 <= pool.load < 1.0 && |pool.slots| > 0 && (forall i, j :: 0 <= i < j < |pool.slots| ==> pool.slots[i] != pool.slots[j])
  {
    hide Eligible, PoolsOf, PoolOf, Admits, OneIdOneSlot;
    EligibleMembers(r, profiles, slots, now);
    PoolsMembers(profiles, r, slots, now);
    var p, route :| p in profiles && Admits(p, r) && PoolOf(p, route, r, slots, now) == Some(pool);
    PoolIsAShare(p, route, r, slots, now, pool);
  }

  lemma PoolIsAShare(p: Profile, route: Route, r: Request, slots: seq<Slot>, now: int, pool: Pool)
    requires OneIdOneSlot(slots) && PoolOf(p, route, r, slots, now) == Some(pool)
    ensures 0.0 <= pool.load < 1.0 && |pool.slots| > 0 && (forall i, j :: 0 <= i < j < |pool.slots| ==> pool.slots[i] != pool.slots[j])
  {
    hide Suits, Free, Sort, SlotKeys, Suitable, Distinct, FreeOnes, Latest, DistinctIds, OneIdOneSlot;
    PoolMembers(p, route, r, slots, now);
    var suitable := Distinct(Suitable(slots, p, route, r, now));
    OrderedIds(FreeOnes(suitable));
    ShareBelowOne(|suitable| - |FreeOnes(suitable)|, |suitable|);
  }

  lemma ShareBelowOne(part: nat, whole: nat)
    requires part < whole
    ensures 0.0 <= part as real / whole as real < 1.0
  {}

  /* ---- the order of the inputs makes no difference ---- */

  lemma PoolIgnoresOrder(p: Profile, route: Route, r: Request, slots: seq<Slot>, others: seq<Slot>, now: int)
    requires OneIdOneSlot(slots) && OneIdOneSlot(others) && forall s :: s in slots <==> s in others
    ensures PoolOf(p, route, r, slots, now) == PoolOf(p, route, r, others, now)
  {
    hide Suits, Free, Suitable, Distinct, FreeOnes, SlotKeys, Sort, Latest, DistinctKeys, DistinctIds;
    PoolMembers(p, route, r, slots, now);
    PoolMembers(p, route, r, others, now);
    var a, b := Distinct(Suitable(slots, p, route, r, now)), Distinct(Suitable(others, p, route, r, now));
    SameCount(a, b);
    SameCount(FreeOnes(a), FreeOnes(b));
    SameLatest(a, b);
    SameKeys(FreeOnes(a), FreeOnes(b));
  }

  lemma SameKeys(a: seq<Slot>, b: seq<Slot>)
    requires DistinctIds(a) && DistinctIds(b) && forall s :: s in a <==> s in b
    ensures Sort(SlotKeys(a)) == Sort(SlotKeys(b))
  {
    hide Sort, DistinctKeys, SlotKeys, SlotKey;
    SlotKeysDistinct(a);
    SlotKeysDistinct(b);
    SortIgnoresOrder(SlotKeys(a), SlotKeys(b));
  }

  lemma {:induction false} PoolsIgnoreSlotOrder(profiles: seq<Profile>, r: Request, slots: seq<Slot>, others: seq<Slot>, now: int)
    requires OneIdOneSlot(slots) && OneIdOneSlot(others) && forall s :: s in slots <==> s in others
    ensures PoolsOf(profiles, r, slots, now) == PoolsOf(profiles, r, others, now)
  {
    hide PoolOf, Admits;
    if |profiles| > 0 {
      PoolsIgnoreSlotOrder(profiles[..|profiles| - 1], r, slots, others, now);
      PoolIgnoresOrder(profiles[|profiles| - 1], JobRoute, r, slots, others, now);
      PoolIgnoresOrder(profiles[|profiles| - 1], HostRoute, r, slots, others, now);
    }
  }

  // Every pool comes from its own profile and route, so no two pools have one key.
  lemma {:induction false} PoolsDistinct(profiles: seq<Profile>, r: Request, slots: seq<Slot>, now: int)
    requires DistinctProfiles(profiles)
    ensures var pools := PoolsOf(profiles, r, slots, now);
            && (forall i :: 0 <= i < |pools| ==> OfProfile(profiles, pools[i])) && OwnPlaces(pools)
  {
    hide PoolOf, Admits, ProfilePools, OfProfile;
    if |profiles| > 0 {
      var before, last := profiles[..|profiles| - 1], profiles[|profiles| - 1];
      PoolsDistinct(before, r, slots, now);
      var earlier, added := PoolsOf(before, r, slots, now), ProfilePools(last, r, slots, now);
      ProfilePoolsDistinct(last, r, slots, now);
      forall i | 0 <= i < |earlier| ensures earlier[i].profile != last.id && OfProfile(profiles, earlier[i]) { Earlier(profiles, earlier[i]); }
      forall i | 0 <= i < |added| ensures OfProfile(profiles, added[i]) { LastProfile(profiles, added[i]); }
    }
  }

  predicate OfProfile(profiles: seq<Profile>, pool: Pool) { exists p :: p in profiles && p.id == pool.profile }

  predicate OwnPlaces(pools: seq<Pool>) { forall i, j :: 0 <= i < j < |pools| ==> pools[i].profile != pools[j].profile || pools[i].route != pools[j].route }

  lemma Earlier(profiles: seq<Profile>, pool: Pool)
    requires |profiles| > 0 && DistinctProfiles(profiles) && OfProfile(profiles[..|profiles| - 1], pool)
    ensures pool.profile != profiles[|profiles| - 1].id && OfProfile(profiles, pool)
  {
    var p :| p in profiles[..|profiles| - 1] && p.id == pool.profile;
    assert p in profiles;
  }

  lemma LastProfile(profiles: seq<Profile>, pool: Pool)
    requires |profiles| > 0 && pool.profile == profiles[|profiles| - 1].id
    ensures OfProfile(profiles, pool)
  {
    assert profiles[|profiles| - 1] in profiles;
  }

  lemma ProfilePoolsDistinct(p: Profile, r: Request, slots: seq<Slot>, now: int)
    ensures var pools := ProfilePools(p, r, slots, now);
            && (forall i :: 0 <= i < |pools| ==> pools[i].profile == p.id)
            && (forall i, j :: 0 <= i < j < |pools| ==> pools[i].route != pools[j].route)
  {
    hide Admits, Suitable, Distinct, FreeOnes, SlotKeys, Sort, Latest;
  }

  lemma PoolKeysDistinct(pools: seq<Pool>)
    requires OwnPlaces(pools)
    ensures DistinctKeys(PoolKeys(pools))
    ensures forall k :: k in PoolKeys(pools) <==> k.item in pools && k == PoolKey(k.item)
  {
    var keyed := PoolKeys(pools);
    forall i, j | 0 <= i < j < |keyed| ensures keyed[i].key != keyed[j].key {
      assert keyed[i].key[3] == pools[i].profile as real && keyed[j].key[3] == pools[j].profile as real;
      assert keyed[i].key[0] == (if pools[i].route == HostRoute then 1.0 else 0.0) && keyed[j].key[0] == (if pools[j].route == HostRoute then 1.0 else 0.0);
    }
    forall k | k in keyed ensures k.item in pools && k == PoolKey(k.item) { KeyOfPool(pools, k); }
    forall k: Keyed<Pool> | k.item in pools && k == PoolKey(k.item) ensures k in keyed {
      var i :| 0 <= i < |pools| && pools[i] == k.item;
      assert keyed[i] == k;
    }
  }

  // The same profiles and the same slots, listed in any order, give the same list of pools.
  lemma EligibleIgnoresOrder(r: Request, profiles: seq<Profile>, others: seq<Profile>, slots: seq<Slot>, slots': seq<Slot>, now: int)
    requires DistinctProfiles(profiles) && DistinctProfiles(others) && forall p :: p in profiles <==> p in others
    requires OneIdOneSlot(slots) && OneIdOneSlot(slots') && forall s :: s in slots <==> s in slots'
    ensures Eligible(r, profiles, slots, now) == Eligible(r, others, slots', now)
  {
    hide PoolsOf, PoolKeys, PoolKey, Sort, Admits, PoolOf, DistinctKeys;
    PoolsIgnoreSlotOrder(others, r, slots, slots', now);
    var a, b := PoolsOf(profiles, r, slots, now), PoolsOf(others, r, slots, now);
    PoolsDistinct(profiles, r, slots, now);
    PoolsDistinct(others, r, slots, now);
    PoolKeysDistinct(a);
    PoolKeysDistinct(b);
    PoolsMembers(profiles, r, slots, now);
    PoolsMembers(others, r, slots, now);
    assert forall pool :: pool in a <==> pool in b;
    SortIgnoresOrder(PoolKeys(a), PoolKeys(b));
  }
}
