// All requests, all executor incarnations, and every run of transactions over them.
module DispatchRuns {
  import opened Options
  import opened DispatchRows
  import opened DispatchRules
  import opened DispatchInvariants
  import opened DispatchEvolution
  import opened DispatchFrames
  import opened DispatchSoundness

  datatype State = State(ledgers: map<nat, Ledger>, incarnations: map<nat, Incarnation>)

  datatype Step =
    | Submit(id: nat)
    | Register(incarnation: nat, row: Incarnation)
    | Act(id: nat, op: Op)

  const Empty := State(map[], map[])
  const Nobody := Incarnation(0, "", "", "", true)

  // Candidate k of the request holds an open reservation of the slot.
  predicate Holds(s: State, id: nat, k: nat, slot: nat) {
    id in s.ledgers && k < |s.ledgers[id].reservations| && s.ledgers[id].reservations[k] == Reservation(slot, false)
  }

  predicate SlotFree(s: State, slot: nat) {
    forall id | id in s.ledgers :: forall k: nat | k < |s.ledgers[id].reservations| :: !Holds(s, id, k, slot)
  }

  predicate KeyOf(s: State, id: nat, a: nat, incarnation: nat, claimKey: string) {
    id in s.ledgers && a < |s.ledgers[id].attempts|
    && s.ledgers[id].attempts[a].incarnation == incarnation && s.ledgers[id].attempts[a].claimKey == claimKey
  }

  // The incarnation already spent this claim key.
  predicate KeySpent(s: State, incarnation: nat, claimKey: string) {
    exists id | id in s.ledgers :: exists a: nat | a < |s.ledgers[id].attempts| :: KeyOf(s, id, a, incarnation, claimKey)
  }

  // The incarnation row an operation is checked against.
  function Speaker(s: State, l: Ledger, op: Op): Option<Incarnation> {
    var named := match op
      case ReserveSlot(_, incarnation, _, _) => Some(incarnation)
      case ClaimAttempt(incarnation, _, _, _, _) => Some(incarnation)
      case StartAttempt(a, _, _, _, _) => if a < |l.attempts| then Some(l.attempts[a].incarnation) else None
      case RenewAttempt(a, _, _, _, _) => if a < |l.attempts| then Some(l.attempts[a].incarnation) else None
      case ResumeAttempt(a, _, _, _, _) => if a < |l.attempts| then Some(l.attempts[a].incarnation) else None
      case CloseSignedOff(a) => if a < |l.attempts| then Some(l.attempts[a].incarnation) else None
      case _ => None;
    if named.Some? && named.value in s.incarnations then Some(s.incarnations[named.value])
    else if op.ReserveSlot? || op.ClaimAttempt? then None else Some(Nobody)
  }

  function SignOff(incarnations: map<nat, Incarnation>, slot: nat): map<nat, Incarnation> {
    map j | j in incarnations :: if incarnations[j].slot == slot then incarnations[j].(signedOff := true) else incarnations[j]
  }

  // A transaction that finds no such request, no such incarnation or a spent claim key changes nothing.
  function Next(s: State, step: Step): State {
    match step
    case Submit(id) => if id in s.ledgers then s else s.(ledgers := s.ledgers[id := Submitted()])
    case Register(incarnation, row) =>
      if incarnation in s.incarnations || row.signedOff then s
      else s.(incarnations := SignOff(s.incarnations, row.slot)[incarnation := row])
    case Act(id, op) =>
      if id !in s.ledgers || !ForeignKeys(s.ledgers[id]) then s
      else if op.ClaimAttempt? && KeySpent(s, op.incarnation, op.claimKey) then s
      else
        var l := s.ledgers[id];
        var i := Speaker(s, l, op);
        if i.None? then s
        else s.(ledgers := s.ledgers[id := Perform(l, op, i.value, SlotFree(s, i.value.slot)).rows])
  }

  function Run(s: State, steps: seq<Step>): State {
    if |steps| == 0 then s else Next(Run(s, steps[..|steps| - 1]), steps[|steps| - 1])
  }

  // A stale stop on this request: see DispatchInvariants.StaleStop.
  predicate Stale(s: State, step: Step, id: nat) {
    step.Act? && step.id == id && id in s.ledgers && StaleOp(s.ledgers[id], step.op)
  }

  // No step of the run is a stale stop on this request; other requests may have any.
  predicate CleanFor(s: State, steps: seq<Step>, id: nat) {
    |steps| > 0 ==> CleanFor(s, steps[..|steps| - 1], id) && !Stale(Run(s, steps[..|steps| - 1]), steps[|steps| - 1], id)
  }

  predicate Ledgers(s: State) { forall id :: id in s.ledgers ==> Sound(s.ledgers[id]) }

  // No slot carries two open reservations.
  ghost predicate Exclusive(s: State) {
    forall id, k: nat, id', k': nat, slot :: Holds(s, id, k, slot) && Holds(s, id', k', slot) ==> id == id' && k == k'
  }

  predicate SameSlotLive(x: Incarnation, y: Incarnation) { x.slot == y.slot && !x.signedOff && !y.signedOff }

  // A slot has at most one incarnation that is not signed off.
  predicate OneIncarnation(s: State) {
    forall i, j :: i in s.incarnations && j in s.incarnations && SameSlotLive(s.incarnations[i], s.incarnations[j]) ==> i == j
  }

  // An attempt's incarnation exists and lives on the slot its candidate reserved.
  predicate BoundTo(l: Ledger, incarnations: map<nat, Incarnation>)
  {
    forall a :: 0 <= a < |l.attempts| ==>
                  && l.attempts[a].incarnation in incarnations && l.attempts[a].candidate < |l.candidates|
                  && incarnations[l.attempts[a].incarnation].slot == l.candidates[l.attempts[a].candidate].slot
  }

  predicate Bound(s: State) { forall id :: id in s.ledgers ==> BoundTo(s.ledgers[id], s.incarnations) }

  // An incarnation's claim key obtained at most one attempt.
  ghost predicate KeysUnique(s: State) {
    forall id, a: nat, id', a': nat, i, key :: KeyOf(s, id, a, i, key) && KeyOf(s, id', a', i, key) ==> id == id' && a == a'
  }

  ghost predicate Consistent(s: State) {
    Ledgers(s) && Exclusive(s) && OneIncarnation(s) && Bound(s) && KeysUnique(s)
  }

  /* ---- every step keeps the state consistent ---- */

  // Any step whatever keeps a consistent state consistent.
  lemma NextConsistent(s: State, step: Step)
    requires Consistent(s)
    ensures Consistent(Next(s, step))
  {
    hide Sound, Perform, SlotFree, KeySpent;
    match step
    case Submit(id) => SubmitConsistent(s, id);
    case Register(incarnation, row) => RegisterConsistent(s, incarnation, row);
    case Act(id, op) => if Next(s, step) != s { ActConsistent(s, id, op); }
  }

  lemma SubmitConsistent(s: State, id: nat)
    requires Consistent(s)
    ensures Consistent(Next(s, Submit(id)))
  {
    hide Sound;
    SubmittedSound();
    var t := Next(s, Submit(id));
    forall x, k: nat, slot | Holds(t, x, k, slot) ensures Holds(s, x, k, slot) {}
    forall x, a: nat, i, key | KeyOf(t, x, a, i, key) ensures KeyOf(s, x, a, i, key) {}
  }

  lemma RegisterConsistent(s: State, incarnation: nat, row: Incarnation)
    requires Consistent(s)
    ensures Consistent(Next(s, Register(incarnation, row)))
  {
    hide Sound;
    var t := Next(s, Register(incarnation, row));
    forall x, k: nat, slot | Holds(t, x, k, slot) ensures Holds(s, x, k, slot) {}
    forall x, a: nat, i, key | KeyOf(t, x, a, i, key) ensures KeyOf(s, x, a, i, key) {}
  }

  // Where the open reservations and the attempts of one request's rows may come from.
  ghost predicate Placed(l: Ledger, m: Ledger, op: Op, i: Incarnation, free: bool) {
    && (forall k: nat, slot :: k < |m.reservations| && m.reservations[k] == Reservation(slot, false) ==>
          (k < |l.reservations| && l.reservations[k] == Reservation(slot, false)) || (slot == i.slot && free))
    && (forall k: nat, j: nat :: k < |m.reservations| && j < |m.reservations| && !m.reservations[k].released && !m.reservations[j].released ==> k == j)
    && (forall a: nat :: a < |m.attempts| ==>
          && m.attempts[a].candidate < |m.candidates|
          && if a < |l.attempts| then
               m.attempts[a].incarnation == l.attempts[a].incarnation && m.attempts[a].claimKey == l.attempts[a].claimKey
               && l.attempts[a].candidate < |l.candidates| && m.candidates[m.attempts[a].candidate].slot == l.candidates[l.attempts[a].candidate].slot
             else
               op.ClaimAttempt? && a == |l.attempts| && m.attempts[a].incarnation == op.incarnation && m.attempts[a].claimKey == op.claimKey
               && m.candidates[m.attempts[a].candidate].slot == i.slot)
  }

  lemma PerformPlaces(l: Ledger, op: Op, i: Incarnation, free: bool)
    requires Sound(l)
    ensures ForeignKeys(l) && Placed(l, Perform(l, op, i, free).rows, op, i, free)
  {
    hide Inv, Kept, Perform, Evolves, Placed, StaleOp;
    SoundKept(l);
    PerformSound(l, op, i, free);
    PerformEvolves(l, op, i, free);
    if !Inv(l) || StaleOp(l, op) {
      StillPlaces(l, Perform(l, op, i, free).rows, op, i, free);
    } else {
      PerformInv(l, op, i, free);
      match op
      case ReserveSlot(_, _, _, _) => ReservePlaces(l, op, i, free);
      case ClaimAttempt(_, _, _, _, _) => ClaimPlaces(l, op, i, free);
      case _ =>
        PerformCounts(l, op, i, free);
        SamePlaces(l, Perform(l, op, i, free).rows, op, i, free);
    }
  }

  // Rows whose capacity stands still stay where they are.
  lemma StillPlaces(l: Ledger, m: Ledger, op: Op, i: Incarnation, free: bool)
    requires Kept(l) && Evolves(l, m)
    requires m == l || (m.candidates == l.candidates && m.reservations == l.reservations && |m.attempts| == |l.attempts|)
    ensures Placed(l, m, op, i, free)
  {
    hide Scopes, Stops, Sending, Results, Outbox, Publications, PendingResults, Retries, PermitsEvolve, PublicationsEvolve, HistoriesGrow;
    forall a: nat | a < |m.attempts| ensures AttemptEvolves(l.attempts[a], m.attempts[a]) {}
  }

  lemma SamePlaces(l: Ledger, m: Ledger, op: Op, i: Incarnation, free: bool)
    requires Inv(l) && Inv(m) && Evolves(l, m) && Counters(l) == Counters(m)
    ensures Placed(l, m, op, i, free)
  {
    hide InvRest, Scopes, Evolves, CandidateEvolves;
    SameClaims(l, m);
    OldRows(m);
    SameSlots(l, m);
    SameAttempts(l, m);
  }

  // The same candidates were claimed.
  lemma SameClaims(l: Ledger, m: Ledger)
    requires Inv(l) && Inv(m) && Evolves(l, m) && Counters(l) == Counters(m)
    ensures |l.attempts| == |m.attempts| && |l.candidates| == |m.candidates| == |l.reservations| == |m.reservations|
    ensures forall k :: 0 <= k < |l.candidates| ==> l.candidates[k].claimed == m.candidates[k].claimed && CandidateEvolves(l.candidates[k], m.candidates[k])
    ensures forall a :: 0 <= a < |l.attempts| ==> AttemptEvolves(l.attempts[a], m.attempts[a])
  {
    hide Scopes, Stops, Sending, Results, Outbox, Publications, PendingResults, PermitsEvolve, PublicationsEvolve, HistoriesGrow, LockStep, Capacity;
    assert |l.attempts| == |m.attempts| && |l.candidates| == |m.candidates|;
    forall k | 0 <= k < |l.candidates| ensures l.candidates[k].claimed == m.candidates[k].claimed {
      var a := AttemptOf(m.attempts, k);
      if a.Some? {
        assert AttemptEvolves(l.attempts[a.value], m.attempts[a.value]);
        assert l.candidates[l.attempts[a.value].candidate].claimed;
      }
      assert CandidateEvolves(l.candidates[k], m.candidates[k]);
    }
  }

  lemma SameSlots(l: Ledger, m: Ledger)
    requires Inv(l) && Inv(m) && Evolves(l, m) && |l.candidates| == |m.candidates| == |l.reservations| == |m.reservations|
    requires forall k :: 0 <= k < |l.candidates| ==> l.candidates[k].claimed == m.candidates[k].claimed && CandidateEvolves(l.candidates[k], m.candidates[k])
    ensures forall k :: 0 <= k < |l.candidates| ==> m.candidates[k].slot == l.candidates[k].slot
    ensures forall k :: 0 <= k < |m.reservations| && !m.reservations[k].released ==> m.reservations[k] == l.reservations[k]
  {
    hide Scopes, Stops, Sending, Results, Outbox, Publications, PendingResults, PermitsEvolve, PublicationsEvolve, HistoriesGrow, LockStep, History, Retries, AttemptsEvolve;
  }

  lemma SameAttempts(l: Ledger, m: Ledger)
    requires Inv(l) && |l.attempts| == |m.attempts| && forall a :: 0 <= a < |l.attempts| ==> AttemptEvolves(l.attempts[a], m.attempts[a])
    ensures forall a: nat :: a < |m.attempts| ==>
              && m.attempts[a].candidate == l.attempts[a].candidate < |l.candidates|
              && m.attempts[a].incarnation == l.attempts[a].incarnation && m.attempts[a].claimKey == l.attempts[a].claimKey
  {
    hide InvRest, Scopes;
    forall a: nat | a < |m.attempts| ensures AttemptEvolves(l.attempts[a], m.attempts[a]) {}
  }

  lemma ReservePlaces(l: Ledger, op: Op, i: Incarnation, free: bool)
    requires Inv(l) && op.ReserveSlot?
    ensures Placed(l, Perform(l, op, i, free).rows, op, i, free)
  {
    hide Scopes, Stops, Sending, Results, Outbox, Publications, PendingResults, RetryAuthority;
  }

  lemma ClaimPlaces(l: Ledger, op: Op, i: Incarnation, free: bool)
    requires Inv(l) && op.ClaimAttempt?
    ensures Placed(l, Perform(l, op, i, free).rows, op, i, free)
  {
    hide Scopes, Stops, Sending, Results, Outbox, Publications, PendingResults, RetryAuthority, Retries, LockStep, History;
    var m := Perform(l, op, i, free).rows;
    if m != l { ClaimedRows(l, m, op, i, free); } else { OldRows(l); }
  }

  lemma OldRows(l: Ledger)
    requires Inv(l)
    ensures forall k: nat, j: nat :: k < |l.reservations| && j < |l.reservations| && !l.reservations[k].released && !l.reservations[j].released ==> k == j
    ensures forall a: nat :: a < |l.attempts| ==> l.attempts[a].candidate < |l.candidates|
  {
    hide Scopes, Stops, Sending, Results, Outbox, Publications, PendingResults, Retries, LockStep, History;
  }

  lemma ClaimedRows(l: Ledger, m: Ledger, op: Op, i: Incarnation, free: bool)
    requires Inv(l) && l.generation > 0 && op.ClaimAttempt?
    requires var k := l.generation - 1;
             && l.candidates[k].status == Reserved && (l.candidates[k].slot == i.slot || free)
             && m.reservations == l.reservations[k := l.reservations[k].(slot := i.slot)]
             && |m.candidates| == |l.candidates| && m.candidates[k].slot == i.slot && m.candidates[..k] == l.candidates[..k]
             && |m.attempts| == |l.attempts| + 1 && m.attempts[..|l.attempts|] == l.attempts
             && m.attempts[|l.attempts|].candidate == k && m.attempts[|l.attempts|].incarnation == op.incarnation && m.attempts[|l.attempts|].claimKey == op.claimKey
    ensures Placed(l, m, op, i, free)
  {
    hide Scopes, Stops, Sending, Results, Outbox, Publications, PendingResults, Retries, LockStep;
    var k := l.generation - 1;
    OldRows(l);
    forall a: nat | a < |l.attempts|
      ensures m.attempts[a] == l.attempts[a] && l.attempts[a].candidate < k && m.candidates[l.attempts[a].candidate] == l.candidates[l.attempts[a].candidate]
    {
      assert m.attempts[..|l.attempts|][a] == m.attempts[a];
      assert l.candidates[l.attempts[a].candidate].claimed;
      assert m.candidates[..k][l.attempts[a].candidate] == m.candidates[l.attempts[a].candidate];
    }
  }

  lemma ActConsistent(s: State, id: nat, op: Op)
    requires Consistent(s) && Next(s, Act(id, op)) != s
    ensures Consistent(Next(s, Act(id, op)))
  {
    hide Next, Speaker, Sound, Perform, SlotFree, KeySpent, Placed, ForeignKeys, Exclusive, KeysUnique, OneIncarnation, Bound;
    ActRows(s, id, op);
    var t, l := Next(s, Act(id, op)), s.ledgers[id];
    var i := Speaker(s, l, op).value;
    var m := Perform(l, op, i, SlotFree(s, i.slot)).rows;
    PerformSound(l, op, i, SlotFree(s, i.slot));
    PerformPlaces(l, op, i, SlotFree(s, i.slot));
    StillExclusive(s, t, id, m, op, i);
    StillUnique(s, t, id, m, op, i);
    StillBound(s, t, id, m, op, i);
  }

  // What a transaction that changes the state is run on, and what it leaves.
  lemma ActRows(s: State, id: nat, op: Op)
    requires Next(s, Act(id, op)) != s
    ensures id in s.ledgers && ForeignKeys(s.ledgers[id]) && Speaker(s, s.ledgers[id], op).Some?
    ensures var i := Speaker(s, s.ledgers[id], op).value;
            && Next(s, Act(id, op)) == s.(ledgers := s.ledgers[id := Perform(s.ledgers[id], op, i, SlotFree(s, i.slot)).rows])
            && (op.ClaimAttempt? ==> !KeySpent(s, op.incarnation, op.claimKey) && op.incarnation in s.incarnations && s.incarnations[op.incarnation] == i)
  {
    hide Perform, SlotFree, KeySpent, ForeignKeys;
  }

  lemma StillBound(s: State, t: State, id: nat, m: Ledger, op: Op, i: Incarnation)
    requires Consistent(s) && id in s.ledgers && t == s.(ledgers := s.ledgers[id := m])
    requires Placed(s.ledgers[id], m, op, i, SlotFree(s, i.slot))
    requires op.ClaimAttempt? ==> op.incarnation in s.incarnations && s.incarnations[op.incarnation] == i
    ensures Bound(t) && OneIncarnation(t)
  {
    hide Sound, SlotFree;
    assert BoundTo(s.ledgers[id], s.incarnations);
    assert BoundTo(m, s.incarnations);
  }

  lemma StillExclusive(s: State, t: State, id: nat, m: Ledger, op: Op, i: Incarnation)
    requires Consistent(s) && id in s.ledgers && t == s.(ledgers := s.ledgers[id := m])
    requires Placed(s.ledgers[id], m, op, i, SlotFree(s, i.slot))
    ensures Exclusive(t)
  {
    hide Sound;
    forall x, k: nat, y, j: nat, slot | Holds(t, x, k, slot) && Holds(t, y, j, slot) ensures x == y && k == j {
      if x != id { assert Holds(s, x, k, slot); }
      if y != id { assert Holds(s, y, j, slot); }
      if x == id { assert Holds(s, id, k, slot) || (slot == i.slot && SlotFree(s, slot)); }
      if y == id { assert Holds(s, id, j, slot) || (slot == i.slot && SlotFree(s, slot)); }
    }
  }

  lemma StillUnique(s: State, t: State, id: nat, m: Ledger, op: Op, i: Incarnation)
    requires Consistent(s) && id in s.ledgers && t == s.(ledgers := s.ledgers[id := m])
    requires Placed(s.ledgers[id], m, op, i, SlotFree(s, i.slot)) && (op.ClaimAttempt? ==> !KeySpent(s, op.incarnation, op.claimKey))
    ensures KeysUnique(t)
  {
    hide Sound, SlotFree;
    var l := s.ledgers[id];
    forall x, a: nat, y, b: nat, inc, key | KeyOf(t, x, a, inc, key) && KeyOf(t, y, b, inc, key) ensures x == y && a == b {
      var oldX, oldY := x != id || a < |l.attempts|, y != id || b < |l.attempts|;
      if oldX { assert KeyOf(s, x, a, inc, key); }
      if oldY { assert KeyOf(s, y, b, inc, key); }
    }
  }

  // Every run, stale stops included, keeps all rows sound, slots exclusive, one live incarnation per slot, attempts on
  // their incarnations' slots, and claim keys unique.
  lemma {:induction false} RunConsistent(s: State, steps: seq<Step>)
    requires Consistent(s)
    ensures Consistent(Run(s, steps))
  {
    hide Consistent, Next;
    if |steps| > 0 {
      RunConsistent(s, steps[..|steps| - 1]);
      NextConsistent(Run(s, steps[..|steps| - 1]), steps[|steps| - 1]);
    }
  }

  lemma EmptyConsistent()
    ensures Consistent(Empty)
  {}

  lemma Reachable(steps: seq<Step>)
    ensures Consistent(Run(Empty, steps))
  {
    EmptyConsistent();
    RunConsistent(Empty, steps);
  }

  // The rows of a request that is not missing satisfy the whole invariant.
  predicate Tracked(s: State, id: nat) { id in s.ledgers ==> Inv(s.ledgers[id]) }

  lemma NextTracks(s: State, step: Step, id: nat)
    requires Tracked(s, id) && !Stale(s, step, id)
    ensures Tracked(Next(s, step), id)
  {
    hide Inv, Perform, SlotFree, KeySpent, StaleOp, ForeignKeys;
    SubmittedInv();
    if step.Act? && step.id == id && id in s.ledgers && ForeignKeys(s.ledgers[id]) {
      var i := Speaker(s, s.ledgers[id], step.op);
      if i.Some? { PerformInv(s.ledgers[id], step.op, i.value, SlotFree(s, i.value.slot)); }
    }
  }

  // A request's own rows satisfy the whole invariant as long as no stale stop hit this request.
  lemma {:induction false} RunTracks(s: State, steps: seq<Step>, id: nat)
    requires Tracked(s, id) && CleanFor(s, steps, id)
    ensures Tracked(Run(s, steps), id)
  {
    hide Tracked, Next, Stale;
    if |steps| > 0 {
      RunTracks(s, steps[..|steps| - 1], id);
      NextTracks(Run(s, steps[..|steps| - 1]), steps[|steps| - 1], id);
    }
  }
}
