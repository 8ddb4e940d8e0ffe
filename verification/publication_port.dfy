// The git publication port: one run that publishes a verified head, or only looks for it.
//
// The remote is the state; every call over the network may fail before or after it took effect,
// and the remote may move between two calls.
module PublicationPort {
  import opened Options
  import opened DispatchRows

  const PAGE := 50
  const PAGES := 20

  datatype Mode = BranchOnly | PullRequest

  datatype Intent = Intent(branch: string, base: string, baseSha: string, headSha: string, mode: Mode, expectedHead: Option<string>, wellFormed: bool)

  datatype Pull = Pull(branch: string, base: string, marked: bool, headSha: string, url: Option<string>)

  // What becomes of a call that changes the remote.
  datatype Delivery = Lost | AppliedUnanswered | Answered

  // What the run meets outside: checks and set-up that may fail, and how each network call ends. `rooted` is the set-up of the run's
  // own directory, whose failure is thrown; what fails later becomes a receipt. `pages` are the pages of pull
  // requests the remote returns, each as its list stands when it is asked.
  datatype World = World(
    allowed: bool, verified: bool, rooted: bool, prepared: bool, headListed: bool, ancestor: bool,
    headAtPush: Option<string>, push: Delivery,
    forgejo: bool, pages: seq<seq<Pull>>, brokenPages: set<nat>, throwingPages: set<nat>,
    create: Delivery, createdUrl: Option<string>, createdSha: string)

  // An exception escapes the run, or it gives a receipt; its caller takes an escape for an unknown outcome.
  datatype Outcome = Escaped | Said(status: ReceiptStatus, url: Option<string>)

  predicate Ours(p: Pull, x: Intent) { p.branch == x.branch && p.base == x.base && p.marked }

  function Matching(pulls: seq<Pull>, x: Intent): seq<Pull> {
    if |pulls| == 0 then []
    else Matching(pulls[..|pulls| - 1], x) + if Ours(pulls[|pulls| - 1], x) then [pulls[|pulls| - 1]] else []
  }

  function Page(pulls: seq<Pull>, page: nat): seq<Pull>
    requires page > 0
  {
    var from := if (page - 1) * PAGE < |pulls| then (page - 1) * PAGE else |pulls|;
    pulls[from..if from + PAGE < |pulls| then from + PAGE else |pulls|]
  }

  lemma {:induction false} MatchingAppends(a: seq<Pull>, b: seq<Pull>, x: Intent)
    ensures Matching(a + b, x) == Matching(a, x) + Matching(b, x)
  {
    if |b| == 0 {
      assert a + b == a;
    } else {
      assert (a + b)[..|a + b| - 1] == a + b[..|b| - 1];
      MatchingAppends(a, b[..|b| - 1], x);
    }
  }

  // The page with this number as it was returned; behind the last page there is nothing.
  function Returned(pages: seq<seq<Pull>>, page: nat): seq<Pull>
    requires page > 0
  {
    if page <= |pages| then pages[page - 1] else []
  }

  // The first n pages were returned, hold none of ours, and all but the n-th are full.
  predicate NoneOfOurs(pages: seq<seq<Pull>>, x: Intent, n: nat) {
    && (forall page :: 1 <= page <= n ==> Matching(Returned(pages, page), x) == [])
    && (forall page :: 1 <= page < n ==> |Returned(pages, page)| >= PAGE)
  }

  // The whole list was returned in pages that hold none of ours.
  predicate SeenWhole(pages: seq<seq<Pull>>, x: Intent) {
    exists n :: 0 < n <= PAGES && NoneOfOurs(pages, x, n) && |Returned(pages, n)| < PAGE
  }

  // One pull request, on our head and with its address.
  predicate GoodAlone(matches: seq<Pull>, x: Intent) { |matches| == 1 && matches[0].headSha == x.headSha && matches[0].url.Some? }

  // The page shows one pull request of ours, on our head and with its address, and listing gets that far.
  predicate ShownAloneAt(pages: seq<seq<Pull>>, x: Intent, broken: set<nat>, throwing: set<nat>, page: nat) {
    && 1 <= page <= PAGES && NoneOfOurs(pages, x, page - 1) && (page > 1 ==> |Returned(pages, page - 1)| >= PAGE)
    && (forall p :: 1 <= p <= page ==> p !in broken && p !in throwing)
    && GoodAlone(Matching(Returned(pages, page), x), x)
  }

  // The first page that holds any of ours shows a good one alone.
  predicate ShownAlone(pages: seq<seq<Pull>>, x: Intent, broken: set<nat>, throwing: set<nat>) {
    exists page :: 1 <= page <= PAGES && ShownAloneAt(pages, x, broken, throwing, page)
  }

  // Listing gets to this page: those before it came back full, and hold none of ours.
  predicate Reaches(pages: seq<seq<Pull>>, x: Intent, broken: set<nat>, throwing: set<nat>, page: nat) {
    && 1 <= page && NoneOfOurs(pages, x, page - 1) && (page > 1 ==> |Returned(pages, page - 1)| >= PAGE)
    && (forall p :: 1 <= p < page ==> p !in broken && p !in throwing)
  }

  predicate ExhaustsAt(pages: seq<seq<Pull>>, x: Intent, broken: set<nat>, throwing: set<nat>, page: nat) {
    && Reaches(pages, x, broken, throwing, page) && page !in broken && page !in throwing
    && Matching(Returned(pages, page), x) == [] && |Returned(pages, page)| < PAGE
  }

  // The first page that ends the listing throws; or it is the last there is, and nothing of ours was found.
  predicate Throws(pages: seq<seq<Pull>>, x: Intent, broken: set<nat>, throwing: set<nat>) {
    exists page :: 1 <= page <= PAGES && Reaches(pages, x, broken, throwing, page) && page in throwing
  }

  predicate Exhausts(pages: seq<seq<Pull>>, x: Intent, broken: set<nat>, throwing: set<nat>) {
    exists page :: 1 <= page <= PAGES && ExhaustsAt(pages, x, broken, throwing, page)
  }

  // The list stood still while its pages were returned.
  predicate Steady(pages: seq<seq<Pull>>, pulls: seq<Pull>) {
    forall page :: 1 <= page <= PAGES ==> Returned(pages, page) == Page(pulls, page)
  }

  // What a full listing found in the first pages of the remote's pull requests.
  datatype Listing = Broken | Thrown | Found(pull: Pull) | Ambiguous | Exhausted | Unfinished

  class Remote {
    var head: Option<string>
    var pulls: seq<Pull>
    // Calls that left for the remote, whether or not they arrived.
    var pushes: nat
    var creates: nat

    // Moves the branch under a lease: the remote accepts only if its head is still the expected one.
    method Push(expected: Option<string>, sha: string, atPush: Option<string>, delivery: Delivery) returns (ok: bool)
      modifies this
      ensures pushes == old(pushes) + 1 && creates == old(creates) && pulls == old(pulls)
      ensures head == if delivery != Lost && atPush == expected then Some(sha) else atPush
      ensures ok == (delivery == Answered && atPush == expected)
    {
      pushes := pushes + 1;
      head := atPush;
      if delivery == Lost || head != expected { return false; }
      head := Some(sha);
      return delivery == Answered;
    }

    method Create(p: Pull, delivery: Delivery) returns (ok: bool)
      modifies this
      ensures creates == old(creates) + 1 && pushes == old(pushes) && head == old(head)
      ensures pulls == if delivery == Lost then old(pulls) else old(pulls) + [p]
      ensures ok == (delivery == Answered)
    {
      creates := creates + 1;
      if delivery != Lost { pulls := pulls + [p]; }
      return delivery == Answered;
    }
  }

  // Where listing ends without a good pull request, none is shown.
  lemma NotShown(pages: seq<seq<Pull>>, x: Intent, broken: set<nat>, throwing: set<nat>, page: nat)
    requires 1 <= page <= PAGES + 1 && NoneOfOurs(pages, x, page - 1)
    requires page <= PAGES ==>
               || page in broken || page in throwing
               || (var matches := Matching(Returned(pages, page), x);
                   if |matches| > 0 then !GoodAlone(matches, x) else |Returned(pages, page)| < PAGE)
    ensures !ShownAlone(pages, x, broken, throwing)
  {
    forall q | 1 <= q <= PAGES ensures !ShownAloneAt(pages, x, broken, throwing, q) {
      if q < page { assert Matching(Returned(pages, q), x) == []; }
      if page < q && NoneOfOurs(pages, x, q - 1) { assert Matching(Returned(pages, page), x) == []; }
    }
  }

  // Walks over at most twenty pages. A found pull request is the only one of its page that is ours; an exhausted listing has seen
  // pages up to one that is not full, and none of ours in them.
  method List(pages: seq<seq<Pull>>, x: Intent, broken: set<nat>, throwing: set<nat>) returns (listing: Listing)
    ensures listing == Exhausted ==> SeenWhole(pages, x)
    ensures listing.Found? ==> (exists page :: 1 <= page <= PAGES && listing.pull in Returned(pages, page))
                               && Ours(listing.pull, x) && listing.pull.headSha == x.headSha && listing.pull.url.Some?
    ensures listing == Unfinished ==> NoneOfOurs(pages, x, PAGES) && |Returned(pages, PAGES)| >= PAGE
    ensures broken == {} && throwing == {} && SeenWhole(pages, x) ==> listing == Exhausted
    ensures listing.Found? <==> ShownAlone(pages, x, broken, throwing)
    ensures listing == Thrown <==> Throws(pages, x, broken, throwing)
    ensures listing == Exhausted <==> Exhausts(pages, x, broken, throwing)
  {
    hide Matching, Returned, NoneOfOurs, ShownAlone, SeenWhole, Throws, Exhausts, ExhaustsAt, Reaches;
    var page := 1;
    Listed(pages, x, broken, throwing, 0);
    while page <= PAGES
      invariant 1 <= page <= PAGES + 1 && NoneOfOurs(pages, x, page - 1) && (page > 1 ==> |Returned(pages, page - 1)| >= PAGE)
      invariant forall p :: 1 <= p < page ==> p !in broken && p !in throwing
    {
      Listed(pages, x, broken, throwing, page);
      Ending(pages, x, broken, throwing, page);
      if page in throwing { return Thrown; }
      if page in broken { return Broken; }
      var rows := Returned(pages, page);
      var matches := Matching(rows, x);
      if |matches| == 1 && matches[0].headSha == x.headSha && matches[0].url.Some? {
        MatchingIsOurs(rows, x, 0);
        ShownHere(pages, x, broken, throwing, page);
        return Found(matches[0]);
      }
      if |matches| > 0 { return Ambiguous; }
      if |rows| < PAGE { return Exhausted; }
      page := page + 1;
    }
    Listed(pages, x, broken, throwing, page);
    Unending(pages, x, broken, throwing);
    return Unfinished;
  }

  // What each end of the listing, having come to this page, says of the list.
  lemma Listed(pages: seq<seq<Pull>>, x: Intent, broken: set<nat>, throwing: set<nat>, page: nat)
    requires page > 0 ==> NoneOfOurs(pages, x, page - 1) && (page > 1 ==> |Returned(pages, page - 1)| >= PAGE)
    ensures page == 0 ==> NoneOfOurs(pages, x, 0)
    ensures page == PAGES + 1 ==> !ShownAlone(pages, x, broken, throwing) && !SeenWhole(pages, x)
    ensures 0 < page <= PAGES ==> var rows := Returned(pages, page); var matches := Matching(rows, x);
              && (page in broken || page in throwing ==> !ShownAlone(pages, x, broken, throwing))
              && (|matches| > 0 ==> !SeenWhole(pages, x) && (!GoodAlone(matches, x) ==> !ShownAlone(pages, x, broken, throwing)))
              && (matches == [] ==> NoneOfOurs(pages, x, page))
              && (matches == [] && |rows| < PAGE ==> SeenWhole(pages, x) && !ShownAlone(pages, x, broken, throwing))
  {
    hide Matching, ShownAlone;
    if 0 < page <= PAGES && (page in broken || page in throwing) { NotShown(pages, x, broken, throwing, page); }
    if page == PAGES + 1 { NotShown(pages, x, broken, throwing, page); }
    if 0 < page <= PAGES {
      if !GoodAlone(Matching(Returned(pages, page), x), x) && (|Matching(Returned(pages, page), x)| > 0 || |Returned(pages, page)| < PAGE) {
        NotShown(pages, x, broken, throwing, page);
      }
      if Matching(Returned(pages, page), x) == [] { assert NoneOfOurs(pages, x, page); }
    }
  }

  // The page that ends a listing is one.
  lemma Ending(pages: seq<seq<Pull>>, x: Intent, broken: set<nat>, throwing: set<nat>, page: nat)
    requires 1 <= page <= PAGES && NoneOfOurs(pages, x, page - 1) && (page > 1 ==> |Returned(pages, page - 1)| >= PAGE)
    requires forall p :: 1 <= p < page ==> p !in broken && p !in throwing
    ensures page in broken || page in throwing || Matching(Returned(pages, page), x) != [] || |Returned(pages, page)| < PAGE ==>
              && (Throws(pages, x, broken, throwing) <==> page in throwing)
              && (Exhausts(pages, x, broken, throwing) <==> page !in throwing && page !in broken && Matching(Returned(pages, page), x) == [])
  {
    hide Matching, Returned;
    assert Reaches(pages, x, broken, throwing, page);
    if page in broken || page in throwing || Matching(Returned(pages, page), x) != [] || |Returned(pages, page)| < PAGE {
      forall q | 1 <= q <= PAGES && q != page ensures !(Reaches(pages, x, broken, throwing, q) && q in throwing) && !ExhaustsAt(pages, x, broken, throwing, q) {
        if page < q { assert NoneOfOurs(pages, x, q - 1) ==> Matching(Returned(pages, page), x) == []; }
        if q < page { assert |Returned(pages, q)| >= PAGE; }
      }
      if page !in throwing && page !in broken && Matching(Returned(pages, page), x) == [] { assert ExhaustsAt(pages, x, broken, throwing, page); }
    }
  }

  lemma Unending(pages: seq<seq<Pull>>, x: Intent, broken: set<nat>, throwing: set<nat>)
    requires NoneOfOurs(pages, x, PAGES) && |Returned(pages, PAGES)| >= PAGE && forall p :: 1 <= p <= PAGES ==> p !in broken && p !in throwing
    ensures !Throws(pages, x, broken, throwing) && !Exhausts(pages, x, broken, throwing)
  {
    hide Matching, Returned;
    forall q | 1 <= q <= PAGES ensures !ExhaustsAt(pages, x, broken, throwing, q) { assert |Returned(pages, q)| >= PAGE; }
  }

  lemma ShownHere(pages: seq<seq<Pull>>, x: Intent, broken: set<nat>, throwing: set<nat>, page: nat)
    requires 1 <= page <= PAGES && ShownAloneAt(pages, x, broken, throwing, page)
    ensures ShownAlone(pages, x, broken, throwing)
  {}

  // Pages of a list that stands still hold none of ours exactly as far as the list does.
  lemma {:induction false} SteadyPages(pages: seq<seq<Pull>>, pulls: seq<Pull>, x: Intent, n: nat)
    requires Steady(pages, pulls) && n < PAGES && NoneOfOurs(pages, x, n + 1)
    ensures n * PAGE <= |pulls| && Matching(pulls[..n * PAGE], x) == []
    ensures |Returned(pages, n + 1)| < PAGE ==> |pulls| < PAGE * PAGES && Matching(pulls, x) == []
  {
    if n > 0 {
      assert NoneOfOurs(pages, x, n);
      SteadyPages(pages, pulls, x, n - 1);
      SplitPages(pulls, n, x);
      assert Returned(pages, n) == Page(pulls, n);
    }
    SplitPages(pulls, n + 1, x);
    assert Returned(pages, n + 1) == Page(pulls, n + 1);
  }

  // So a list that stands still was seen whole exactly when it fits the pages and holds none of ours.
  lemma SteadyWhole(pages: seq<seq<Pull>>, pulls: seq<Pull>, x: Intent)
    requires Steady(pages, pulls)
    ensures SeenWhole(pages, x) <==> |pulls| < PAGE * PAGES && Matching(pulls, x) == []
  {
    if SeenWhole(pages, x) {
      var n :| 0 < n <= PAGES && NoneOfOurs(pages, x, n) && |Returned(pages, n)| < PAGE;
      SteadyPages(pages, pulls, x, n - 1);
    }
    if |pulls| < PAGE * PAGES && Matching(pulls, x) == [] {
      var n := |pulls| / PAGE + 1;
      forall page | 1 <= page <= n
        ensures Matching(Returned(pages, page), x) == [] && (page < n ==> |Returned(pages, page)| >= PAGE)
      {
        SplitPages(pulls, page, x);
        assert Returned(pages, page) == Page(pulls, page);
      }
      assert Returned(pages, n) == Page(pulls, n);
      assert NoneOfOurs(pages, x, n) && |Returned(pages, n)| < PAGE;
    }
  }

  lemma SteadyFound(pages: seq<seq<Pull>>, pulls: seq<Pull>, page: nat, p: Pull)
    requires Steady(pages, pulls) && 1 <= page <= PAGES && p in Returned(pages, page)
    ensures p in pulls
  {
    assert Returned(pages, page) == Page(pulls, page);
  }

  // One page further: what the next page holds continues what the earlier pages held.
  lemma SplitPages(pulls: seq<Pull>, page: nat, x: Intent)
    requires 0 < page && (page - 1) * PAGE <= |pulls|
    ensures var seen, rows := pulls[..(page - 1) * PAGE], Page(pulls, page);
            && (|rows| < PAGE ==> pulls == seen + rows && |pulls| < page * PAGE)
            && (|rows| >= PAGE ==> page * PAGE <= |pulls| && pulls[..page * PAGE] == seen + rows)
            && Matching(seen + rows, x) == Matching(seen, x) + Matching(rows, x)
            && (Matching(pulls, x) == [] ==> Matching(rows, x) == [])
  {
    var seen, rows := pulls[..(page - 1) * PAGE], Page(pulls, page);
    MatchingAppends(seen, rows, x);
    assert pulls == (seen + rows) + pulls[|seen| + |rows|..];
    MatchingAppends(seen + rows, pulls[|seen| + |rows|..], x);
  }

  lemma {:induction false} MatchingIsOurs(pulls: seq<Pull>, x: Intent, k: nat)
    requires k < |Matching(pulls, x)|
    ensures Matching(pulls, x)[k] in pulls && Ours(Matching(pulls, x)[k], x)
  {
    if k < |Matching(pulls[..|pulls| - 1], x)| { MatchingIsOurs(pulls[..|pulls| - 1], x, k); }
  }

  predicate Healthy(w: World) {
    && w.allowed && w.verified && w.rooted && w.prepared && w.headListed && w.ancestor && w.push == Answered
    && w.forgejo && w.brokenPages == {} && w.throwingPages == {} && w.create == Answered && w.createdUrl.Some?
  }

  // What an exception during the run says: after anything was sent, nothing is known.
  function Caught(sent: bool, send: bool): ReceiptStatus {
    if sent then SaysUnknown else if send then SaysFailed else SaysUnknown
  }

  // The pull request is among the remote's, or a page that was returned showed it.
  predicate Shown(p: Pull, pulls: seq<Pull>, pages: seq<seq<Pull>>) {
    p in pulls || exists page :: 1 <= page <= PAGES && p in Returned(pages, page)
  }

  // The remote has what was to be published, and every check and call on the way to seeing it goes well.
  predicate Confirmable(x: Intent, head: Option<string>, w: World) {
    && x.wellFormed && w.allowed && w.verified
    && (|| x.baseSha == x.headSha
        || (&& w.rooted && w.prepared && w.headListed && head == Some(x.headSha)
            && (x.mode == PullRequest ==> w.forgejo && ShownAlone(w.pages, x, w.brokenPages, w.throwingPages))))
  }

  // A push leaves over the head the operation expects, once everything before it has gone well.
  predicate Pushes(x: Intent, head: Option<string>, w: World) {
    && x.wellFormed && w.allowed && w.verified && x.baseSha != x.headSha && w.rooted && w.prepared && w.headListed
    && head != Some(x.headSha) && head == x.expectedHead && (head.Some? ==> w.ancestor)
  }

  // The remote has our head, or takes it and says so.
  predicate Arrives(x: Intent, head: Option<string>, w: World) {
    head == Some(x.headSha) || (Pushes(x, head, w) && w.push == Answered && w.headAtPush == x.expectedHead)
  }

  // A pull request is created for a head that has arrived, once the list has shown none of ours.
  predicate Creates(x: Intent, head: Option<string>, w: World) {
    && x.wellFormed && w.allowed && w.verified && x.baseSha != x.headSha && w.rooted && w.prepared && w.headListed
    && Arrives(x, head, w) && x.mode == PullRequest && w.forgejo && Exhausts(w.pages, x, w.brokenPages, w.throwingPages)
  }

  // Everything on the way to a confirmation goes well: there is nothing to publish, or the head arrives and, if a pull request is asked
  // for, one of ours is shown on it or a new one is created behind a whole list without any.
  predicate Succeeds(x: Intent, head: Option<string>, w: World) {
    && x.wellFormed && w.allowed && w.verified
    && (|| x.baseSha == x.headSha
        || (&& w.rooted && w.prepared && w.headListed && Arrives(x, head, w)
            && (x.mode == PullRequest ==>
                  && w.forgejo
                  && (|| ShownAlone(w.pages, x, w.brokenPages, w.throwingPages)
                      || (Exhausts(w.pages, x, w.brokenPages, w.throwingPages) && w.create == Answered && w.createdUrl.Some? && w.createdSha == x.headSha)))))
  }

  // Something fails before anything is sent: the check of the artifact, the set-up, the head or its ancestry, or, of a head that
  // is there, the listing of its pull requests.
  predicate FailsUnsent(x: Intent, head: Option<string>, w: World) {
    && x.wellFormed && w.allowed
    && (|| !w.verified
        || (&& x.baseSha != x.headSha && w.rooted
            && (|| !w.prepared || !w.headListed
                || (head != Some(x.headSha) && !Pushes(x, head, w))
                || (head == Some(x.headSha) && x.mode == PullRequest && w.forgejo && Throws(w.pages, x, w.brokenPages, w.throwingPages)))))
  }

  // When nothing fails outside and the remote is as expected, a publication succeeds.
  lemma HealthySucceeds(x: Intent, head: Option<string>, w: World)
    requires x.wellFormed && Healthy(w) && (head == Some(x.headSha) || head == x.expectedHead == w.headAtPush)
    requires x.mode == PullRequest ==> SeenWhole(w.pages, x) && w.createdSha == x.headSha
    ensures Succeeds(x, head, w)
  {
    if x.mode == PullRequest {
      var n :| 0 < n <= PAGES && NoneOfOurs(w.pages, x, n) && |Returned(w.pages, n)| < PAGE;
      assert Matching(Returned(w.pages, n), x) == [];
      assert NoneOfOurs(w.pages, x, n - 1);
      if n > 1 { assert |Returned(w.pages, n - 1)| >= PAGE; }
      assert ExhaustsAt(w.pages, x, {}, {}, n);
    }
  }

  lemma WhenHealthy(x: Intent, head: Option<string>, w: World)
    ensures x.wellFormed && Healthy(w) && (head == Some(x.headSha) || head == x.expectedHead == w.headAtPush)
            && (x.mode == PullRequest ==> SeenWhole(w.pages, x) && w.createdSha == x.headSha)
            ==> Succeeds(x, head, w)
  {
    hide Succeeds, Healthy, SeenWhole;
    if x.wellFormed && Healthy(w) && (head == Some(x.headSha) || head == x.expectedHead == w.headAtPush)
       && (x.mode == PullRequest ==> SeenWhole(w.pages, x) && w.createdSha == x.headSha) { HealthySucceeds(x, head, w); }
  }

  // Publishes the head (`send`), or only finds out whether the remote has it.
  method Publish(x: Intent, send: bool, remote: Remote, w: World) returns (o: Outcome)
    modifies remote
    // Looking never writes and never fails an operation.
    ensures !send ==> remote.pushes == old(remote.pushes) && remote.creates == old(remote.creates)
                      && remote.head == old(remote.head) && remote.pulls == old(remote.pulls) 
    // A failed receipt promises that nothing left for the remote.
    ensures o.Said? && o.status == SaysFailed ==>
              send && remote.pushes == old(remote.pushes) && remote.creates == old(remote.creates)
              && remote.head == old(remote.head) && remote.pulls == old(remote.pulls)
    ensures o.Escaped? <==> !x.wellFormed || !w.allowed || (w.verified && x.baseSha != x.headSha && !w.rooted)
    ensures o.Escaped? ==> remote.pushes == old(remote.pushes) && remote.creates == old(remote.creates)
                           && remote.head == old(remote.head) && remote.pulls == old(remote.pulls)
    // A push leaves only over the expected head, and moves the branch only while that is still its head.
    ensures remote.pushes > old(remote.pushes) ==>
              old(remote.head) == x.expectedHead != Some(x.headSha) && (x.expectedHead.Some? ==> w.ancestor)
              && (remote.head == w.headAtPush || (remote.head == Some(x.headSha) && w.headAtPush == x.expectedHead))
    // A pull request is created only after the whole list was returned and held none of ours, wherever it moved meanwhile; if it
    // stood still there was none of ours at all.
    ensures remote.creates > old(remote.creates) ==> SeenWhole(w.pages, x) && x.mode == PullRequest && x.headSha != x.baseSha
    ensures |Matching(remote.pulls, x)| <= |Matching(old(remote.pulls), x)| + 1
    ensures Steady(w.pages, old(remote.pulls)) && |Matching(old(remote.pulls), x)| > 0 ==> remote.pulls == old(remote.pulls) && remote.creates == old(remote.creates)
    // A confirmed receipt is earned: nothing to publish, or the remote has the head and, if asked for, a pull request on it.
    ensures o.Said? && o.status == SaysConfirmed ==>
              || x.baseSha == x.headSha
              || (&& remote.head == Some(x.headSha)
                  && (x.mode == PullRequest ==> o.url.Some? && exists p :: Shown(p, remote.pulls, w.pages) && Ours(p, x) && p.headSha == x.headSha && p.url == o.url)
                  && (x.mode == PullRequest && Steady(w.pages, old(remote.pulls)) ==>
                        exists p :: p in remote.pulls && Ours(p, x) && p.headSha == x.headSha && p.url == o.url))
    // A create that is lost leaves the operation unknown, and whoever looks at the whole list afterwards can do nothing with it.
    ensures remote.creates > old(remote.creates) && w.create == Lost ==>
              && o == Said(SaysUnknown, None) && remote.pulls == old(remote.pulls)
              && forall later: World :: SeenWhole(later.pages, x) ==> Tells(SightOf(x, remote.head, remote.pulls, later), x.headSha) == Neither
    // Looking confirms exactly what can be confirmed.
    ensures !send ==> (o.Said? && o.status == SaysConfirmed <==> Confirmable(x, old(remote.head), w))
    // Sending confirms exactly what succeeds and fails exactly what fails with nothing sent; everything else is unknown.
    ensures send ==> (o.Said? && o.status == SaysConfirmed <==> Succeeds(x, old(remote.head), w))
    ensures send ==> (o.Said? && o.status == SaysFailed <==> FailsUnsent(x, old(remote.head), w))
    ensures remote.pushes == old(remote.pushes) + if send && Pushes(x, old(remote.head), w) then 1 else 0
    ensures remote.creates == old(remote.creates) + if send && Creates(x, old(remote.head), w) then 1 else 0
    ensures send && Succeeds(x, old(remote.head), w) && x.baseSha != x.headSha ==> remote.head == Some(x.headSha)
    // When nothing fails outside, what can be confirmed is confirmed.
    ensures x.wellFormed && Healthy(w) && x.mode == BranchOnly && old(remote.head) == Some(x.headSha) ==> o == Said(SaysConfirmed, None)
    ensures send && x.wellFormed && Healthy(w) && (old(remote.head) == Some(x.headSha) || old(remote.head) == x.expectedHead == w.headAtPush)
            && (x.mode == PullRequest ==> SeenWhole(w.pages, x) && w.createdSha == x.headSha)
            ==> o.Said? && o.status == SaysConfirmed
  {
    hide Matching, ShownAlone, SeenWhole, Steady, NoneOfOurs, Returned, Page, SightOf, Tells, Throws, Exhausts;
    WhenHealthy(x, remote.head, w);
    if !x.wellFormed { return Escaped; }
    if !w.allowed { return Escaped; }
    if !w.verified { return Said(if send then SaysFailed else SaysUnknown, None); }
    if x.baseSha == x.headSha { return Said(SaysConfirmed, None); }
    if !w.rooted { return Escaped; }
    var sent := false;
    if !w.prepared || !w.headListed { return Said(Caught(sent, send), None); }
    var remoteHead := remote.head;
    if remoteHead != Some(x.headSha) {
      if !send { return Said(SaysUnknown, None); }
      if remoteHead != x.expectedHead { return Said(SaysFailed, None); }
      if remoteHead.Some? && !w.ancestor { return Said(Caught(sent, send), None); }
      sent := true;
      var pushed := remote.Push(x.expectedHead, x.headSha, w.headAtPush, w.push);
      if !pushed { return Said(Caught(sent, send), None); }
    }
    if x.mode == BranchOnly { return Said(SaysConfirmed, None); }
    if !w.forgejo { return Said(SaysUnknown, None); }
    var listing := List(w.pages, x, w.brokenPages, w.throwingPages);
    if listing.Found? {
      ghost var page :| 1 <= page <= PAGES && listing.pull in Returned(w.pages, page);
      if Steady(w.pages, remote.pulls) { SteadyFound(w.pages, remote.pulls, page, listing.pull); }
      assert Shown(listing.pull, remote.pulls, w.pages);
      return Said(SaysConfirmed, listing.pull.url);
    }
    if listing.Thrown? { return Said(Caught(sent, send), None); }
    if listing.Broken? || listing.Ambiguous? { return Said(SaysUnknown, None); }
    if !send || listing != Exhausted { return Said(SaysUnknown, None); }
    sent := true;
    if Steady(w.pages, remote.pulls) { SteadyWhole(w.pages, remote.pulls, x); }
    var p := Pull(x.branch, x.base, true, w.createdSha, w.createdUrl);
    CreatedIsOurs(remote.pulls, p, x);
    assert p in remote.pulls + [p] && Shown(p, remote.pulls + [p], w.pages);
    var created := remote.Create(p, w.create);
    LostCreate(x, remote.head, remote.pulls);
    if !created { return Said(Caught(sent, send), None); }
    return if w.createdUrl.Some? && w.createdSha == x.headSha then Said(SaysConfirmed, w.createdUrl) else Said(SaysUnknown, None);
  }

  lemma CreatedIsOurs(pulls: seq<Pull>, p: Pull, x: Intent)
    requires Ours(p, x)
    ensures Matching(pulls + [p], x) == Matching(pulls, x) + [p]
  {
    assert Matching([p], x) == [p] by { assert [p][..0] == []; }
    MatchingAppends(pulls, [p], x);
  }

  /* ---- what looking and attesting can make of the remote ---- */

  // What a remote with this head and these pull requests shows of the operation.
  function SightOf(x: Intent, head: Option<string>, pulls: seq<Pull>, w: World): Sight {
    Sight(head, Confirmable(x, head, w), x.mode == PullRequest && Matching(pulls, x) != [])
  }

  // A head that arrived without its pull request can be neither confirmed nor attested away: the pages are whole and hold none of
  // ours, so looking never confirms, however well everything goes; and the head is ours, so no attestation is accepted.
  lemma PushedWithoutPull(x: Intent, pulls: seq<Pull>, w: World)
    requires x.mode == PullRequest && x.baseSha != x.headSha && SeenWhole(w.pages, x)
    ensures Tells(SightOf(x, Some(x.headSha), pulls, w), x.headSha) == Neither
  {
    WholeShowsNone(w.pages, x, w.brokenPages, w.throwingPages);
  }

  lemma LostCreate(x: Intent, head: Option<string>, pulls: seq<Pull>)
    requires x.mode == PullRequest && x.baseSha != x.headSha && head == Some(x.headSha)
    ensures forall later: World :: SeenWhole(later.pages, x) ==> Tells(SightOf(x, head, pulls, later), x.headSha) == Neither
  {
    forall later: World | SeenWhole(later.pages, x) ensures Tells(SightOf(x, head, pulls, later), x.headSha) == Neither {
      PushedWithoutPull(x, pulls, later);
    }
  }

  lemma WholeShowsNone(pages: seq<seq<Pull>>, x: Intent, broken: set<nat>, throwing: set<nat>)
    requires SeenWhole(pages, x)
    ensures !ShownAlone(pages, x, broken, throwing)
  {
    var n :| 0 < n <= PAGES && NoneOfOurs(pages, x, n) && |Returned(pages, n)| < PAGE;
    assert Matching(Returned(pages, n), x) == [];
    assert NoneOfOurs(pages, x, n - 1);
    NotShown(pages, x, broken, throwing, n);
  }

  // When nothing fails outside and the list stands still, fits the pages and holds at most one pull request of ours, neither can be
  // done exactly when a pull request was asked for and the remote has only half of it: our head without a good pull request on it, or
  // a pull request of ours without our head.
  lemma HalfwayExactly(x: Intent, head: Option<string>, pulls: seq<Pull>, w: World)
    requires x.wellFormed && Healthy(w) && x.baseSha != x.headSha
    requires Steady(w.pages, pulls) && |pulls| < PAGE * PAGES && |Matching(pulls, x)| <= 1
    ensures Tells(SightOf(x, head, pulls, w), x.headSha) == Neither <==>
              x.mode == PullRequest && (if head == Some(x.headSha) then !GoodAlone(Matching(pulls, x), x) else Matching(pulls, x) != [])
  {
    hide Matching, ShownAlone, Steady;
    if x.mode == PullRequest { ShownExactly(w.pages, pulls, x); }
  }

  lemma ShownExactly(pages: seq<seq<Pull>>, pulls: seq<Pull>, x: Intent)
    requires Steady(pages, pulls) && |pulls| < PAGE * PAGES && |Matching(pulls, x)| <= 1
    ensures ShownAlone(pages, x, {}, {}) <==> GoodAlone(Matching(pulls, x), x)
  {
    if ShownAlone(pages, x, {}, {}) {
      var page :| 1 <= page <= PAGES && ShownAloneAt(pages, x, {}, {}, page);
      OnPage(pages, pulls, x, page);
    }
    if GoodAlone(Matching(pulls, x), x) {
      var page := FirstOurs(pages, pulls, x, 0);
      assert ShownAloneAt(pages, x, {}, {}, page);
    }
  }

  // What the list holds of ours lies before, on and behind a page.
  lemma Around(pulls: seq<Pull>, page: nat, x: Intent)
    requires 0 < page && (page - 1) * PAGE <= |pulls|
    ensures var seen, rows := pulls[..(page - 1) * PAGE], Page(pulls, page);
            |seen| + |rows| <= |pulls| && Matching(pulls, x) == Matching(seen, x) + Matching(rows, x) + Matching(pulls[|seen| + |rows|..], x)
  {
    hide Matching;
    var seen, rows := pulls[..(page - 1) * PAGE], Page(pulls, page);
    assert pulls == (seen + rows) + pulls[|seen| + |rows|..];
    MatchingAppends(seen, rows, x);
    MatchingAppends(seen + rows, pulls[|seen| + |rows|..], x);
  }

  // What one page shows of ours is all there is, if there is at most one.
  lemma OnPage(pages: seq<seq<Pull>>, pulls: seq<Pull>, x: Intent, page: nat)
    requires Steady(pages, pulls) && 1 <= page <= PAGES && |Matching(pulls, x)| <= 1 && |Matching(Returned(pages, page), x)| == 1
    ensures Matching(pulls, x) == Matching(Returned(pages, page), x)
  {
    hide Matching, Returned, Steady, Page;
    Nonempty(pages, pulls, page);
    MatchingIsOurs(Returned(pages, page), x, 0);
    Around(pulls, page, x);
  }

  lemma Nonempty(pages: seq<seq<Pull>>, pulls: seq<Pull>, page: nat)
    requires Steady(pages, pulls) && 1 <= page <= PAGES
    ensures Returned(pages, page) == Page(pulls, page) && (|Page(pulls, page)| > 0 ==> (page - 1) * PAGE <= |pulls|)
  {}

  lemma SteadyAt(pages: seq<seq<Pull>>, pulls: seq<Pull>, page: nat)
    requires Steady(pages, pulls) && |pulls| < PAGE * PAGES && 0 < page && (page - 1) * PAGE <= |pulls|
    ensures page <= PAGES && Returned(pages, page) == Page(pulls, page)
  {}

  // A page without any of ours is followed by another, if there are any of ours at all.
  lemma Further(pages: seq<seq<Pull>>, pulls: seq<Pull>, x: Intent, page: nat)
    requires 0 < page && (page - 1) * PAGE <= |pulls| && NoneOfOurs(pages, x, page - 1) && (page > 1 ==> |Returned(pages, page - 1)| >= PAGE)
    requires Returned(pages, page) == Page(pulls, page) && Matching(Page(pulls, page), x) == []
    requires Matching(pulls[..(page - 1) * PAGE], x) == [] && |Matching(pulls, x)| == 1
    ensures page * PAGE <= |pulls| && Matching(pulls[..page * PAGE], x) == [] && NoneOfOurs(pages, x, page) && |Returned(pages, page)| >= PAGE
  {
    hide Matching;
    SplitPages(pulls, page, x);
  }

  // The first page with any of ours, from this page on.
  lemma {:induction false} FirstOurs(pages: seq<seq<Pull>>, pulls: seq<Pull>, x: Intent, n: nat) returns (page: nat)
    requires Steady(pages, pulls) && |pulls| < PAGE * PAGES && |Matching(pulls, x)| == 1
    requires n * PAGE <= |pulls| && Matching(pulls[..n * PAGE], x) == []
    requires NoneOfOurs(pages, x, n) && (n > 0 ==> |Returned(pages, n)| >= PAGE)
    ensures 1 <= page <= PAGES && NoneOfOurs(pages, x, page - 1) && (page > 1 ==> |Returned(pages, page - 1)| >= PAGE)
    ensures Matching(Returned(pages, page), x) == Matching(pulls, x)
    decreases |pulls| - n * PAGE
  {
    hide Matching, Returned, Steady, NoneOfOurs, Page;
    page := n + 1;
    SteadyAt(pages, pulls, page);
    Around(pulls, page, x);
    if Matching(Page(pulls, page), x) == [] {
      Further(pages, pulls, x, page);
      page := FirstOurs(pages, pulls, x, page);
    }
  }
}
