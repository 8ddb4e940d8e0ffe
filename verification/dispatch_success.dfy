// The ordinary way of a request, from any state in which it waits to its success.
module DispatchSuccess {
  import opened Options
  import opened DispatchRows
  import opened DispatchRules
  import opened DispatchInvariants
  import opened DispatchEvolution
  import opened DispatchFrames
  import opened DispatchSoundness
  import opened DispatchRuns
  import opened DispatchTheorems
  import opened DispatchOutcomes
  import opened DispatchService
  import opened DispatchDecisions
  import opened DispatchFlows
  import Leases = DispatchLeases

  // Who executes the request, when, in which scope, and with what observation of its end.
  datatype Execution = Execution(incarnation: nat, claimKey: string, scope: Scope, reserved: int, claimed: int, started: int, maxDuration: int, halted: Observation)

  // The executor is live on a free slot, has not used its claim key, starts within its lease, and its end is properly observed.
  predicate Able(s: State, x: Execution) {
    && x.incarnation in s.incarnations && !s.incarnations[x.incarnation].signedOff
    && SlotFree(s, s.incarnations[x.incarnation].slot) && !KeySpent(s, x.incarnation, x.claimKey)
    && Fits(x, s.incarnations[x.incarnation])
  }

  predicate Fits(x: Execution, i: Incarnation) {
    && ScopeOfIncarnation(x.scope, i) && x.started - x.claimed < LEASE_MS
    && x.halted.authentic && x.halted.timely && x.halted.scope == x.scope
  }

  // The transactions up to the claim, and those of the attempt it opens.
  function Claiming(x: Execution): seq<Op> {
    [PrepareSources(true), ReserveSlot(Host, x.incarnation, true, x.reserved), ClaimAttempt(x.incarnation, x.claimKey, true, true, x.claimed)]
  }

  function Executed(a: nat, x: Execution, submitted: Report): seq<Op> {
    [StartAttempt(a, x.scope, true, x.started, x.maxDuration), StopAttempt(a, true, x.halted),
     BeginCompletion(a, submitted, true, true, None), EndCompletion(Submission(a, submitted, submitted), true, true)]
  }

  function Steps(ops: seq<Op>, id: nat): seq<Step> { seq(|ops|, i requires 0 <= i < |ops| => Act(id, ops[i])) }

  /* ---- the rows ---- */

  lemma Generations(l: Ledger)
    requires Inv(l)
    ensures l.generation == |l.candidates| == |l.reservations|
  {}

  // A waiting request whose sources are there, or may still come, is reserved and claimed.
  lemma Claims(l: Ledger, x: Execution, i: Incarnation, free: bool)
    requires Inv(l) && l.state == Waiting && (l.sourcesReady || !l.firstClaimed) && !i.signedOff
    ensures ForeignKeys(l)
    ensures var ready := Prepare(l, true).rows;
            && ForeignKeys(ready) && ready.attempts == l.attempts && ready.reservations == l.reservations
            && var booked := Reserve(ready, Host, x.incarnation, i.slot, true, true, x.reserved).rows;
            && ForeignKeys(booked) && booked.attempts == l.attempts
            && var taken := Claim(booked, x.incarnation, i, x.claimKey, free, true, true, x.claimed).rows;
            && Inv(taken) && Taken(taken, |l.attempts|, x, i)
  {
    hide Inv, Claim, Reserve, RetryAuthority;
    Keys(l);
    PrepareInv(l, true);
    var ready := Prepare(l, true).rows;
    Keys(ready);
    ReserveInv(ready, Host, x.incarnation, i.slot, true, true, x.reserved);
    ReservationDecides(ready, Host, x.incarnation, i.slot, true, true, x.reserved);
    Generations(ready);
    var booked := Reserve(ready, Host, x.incarnation, i.slot, true, true, x.reserved).rows;
    Keys(booked);
    ClaimInv(booked, x.incarnation, i, x.claimKey, free, true, true, x.claimed);
    ClaimDecides(booked, x.incarnation, i, x.claimKey, free, true, true, x.claimed);
  }

  // This newest attempt has just been claimed.
  predicate Taken(l: Ledger, a: nat, x: Execution, i: Incarnation) {
    && l.state == Claimed && a + 1 == |l.attempts| && |l.candidates| > 0 && l.candidates[|l.candidates| - 1].slot == i.slot
    && l.attempts[a] == Attempt(|l.candidates| - 1, x.incarnation, x.claimKey, Claimed, None, None, x.claimed, false, false)
  }

  // It starts, and runs in its scope.
  lemma Starts(l: Ledger, a: nat, x: Execution, i: Incarnation)
    requires Inv(l) && Taken(l, a, x, i) && Fits(x, i) && !i.signedOff
    ensures ForeignKeys(l)
    ensures var m := Start(l, a, i, x.scope, true, x.started, x.maxDuration).rows;
            && Inv(m) && m.state == Running && a + 1 == |m.attempts| && !m.attempts[a].stopped && m.attempts[a].scopeId.Some?
            && RecordedScope(m.startedScopes, a, x.scope) && !Unresolved(m.publications)
  {
    hide Inv, Start, ScopeOfIncarnation, RecordedScope, Unresolved;
    Keys(l);
    RowFacts(l, a);
    StartDecides(l, a, i, x.scope, true, x.started, x.maxDuration);
    StartInv(l, a, i, x.scope, true, x.started, x.maxDuration);
    Leases.StartedOnce(l, a, x.scope);
    UnstoppedPublications(Start(l, a, i, x.scope, true, x.started, x.maxDuration).rows);
  }

  // It stops, by an observation of that scope.
  lemma Halts(l: Ledger, a: nat, x: Execution, i: Incarnation)
    requires Inv(l) && l.state == Running && a + 1 == |l.attempts| && !l.attempts[a].stopped && l.attempts[a].scopeId.Some?
    requires RecordedScope(l.startedScopes, a, x.scope) && !Unresolved(l.publications) && Fits(x, i)
    ensures ForeignKeys(l)
    ensures var m := SubmitStop(l, a, true, x.halted).rows;
            Inv(m) && ForeignKeys(m) && m.state == Running && a + 1 == |m.attempts| && m.attempts[a].stopped && !Unresolved(m.publications)
  {
    hide Inv, SubmitStop, RecordedScope, Unresolved, ScopeOfIncarnation;
    Keys(l);
    StopDecides(l, a, true, x.halted);
    SubmitStopInv(l, a, true, x.halted);
    Keys(SubmitStop(l, a, true, x.halted).rows);
  }

  // And its success is stored as it was submitted.
  lemma Stores(l: Ledger, a: nat, submitted: Report)
    requires Inv(l) && ForeignKeys(l) && l.state == Running && a + 1 == |l.attempts| && l.attempts[a].stopped && !Unresolved(l.publications)
    requires submitted.outcome == Succeeded
    ensures var begun := BeginResult(l, a, submitted, true, true, None).rows;
            && ForeignKeys(begun)
            && var ended := EndResult(begun, Submission(a, submitted, submitted), true, true).rows;
            && Inv(ended) && ended.state == Succeeded && ended.results == [Result(Some(a), submitted)]
  {
    hide Inv, BeginResult, EndResult, Unresolved, ForeignKeys;
    ReadyBegins(l, a, submitted);
    BeginAnswers(l, a, submitted, true, true, None);
    BeginResultInv(l, a, submitted, true, true, None);
    var begun := BeginResult(l, a, submitted, true, true, None).rows;
    Keys(begun);
    ReadyIsOpen(begun, a);
    EndAnswers(begun, Submission(a, submitted, submitted), true, true);
    EndResultInv(begun, Submission(a, submitted, submitted), true, true);
    EndSucceeds(begun, EndCompletion(Submission(a, submitted, submitted), true, true), Nobody, false);
  }

  /* ---- the run ---- */

  lemma StepsGrow(s: State, ops: seq<Op>, op: Op, id: nat)
    ensures Run(s, Steps(ops + [op], id)) == Next(Run(s, Steps(ops, id)), Act(id, op))
  {
    hide Next;
    assert Steps(ops + [op], id) == Steps(ops, id) + [Act(id, op)];
    RunOne(s, Steps(ops, id), Act(id, op));
  }

  // A transaction of a request, spoken for by this incarnation.
  lemma Acts(s: State, id: nat, op: Op, i: Incarnation)
    requires Consistent(s) && id in s.ledgers && Speaker(s, s.ledgers[id], op) == Some(i)
    requires op.ClaimAttempt? ==> !KeySpent(s, op.incarnation, op.claimKey)
    ensures ForeignKeys(s.ledgers[id]) && Consistent(Next(s, Act(id, op)))
    ensures Next(s, Act(id, op)) == s.(ledgers := s.ledgers[id := Perform(s.ledgers[id], op, i, SlotFree(s, i.slot)).rows])
  {
    hide Perform, Consistent, SlotFree, KeySpent, ForeignKeys, Speaker;
    DispatchFlows.Known(s, id);
    NextConsistent(s, Act(id, op));
  }

  lemma SameSlots(s: State, id: nat, m: Ledger, slot: nat, incarnation: nat, key: string)
    requires id in s.ledgers
    ensures var t := s.(ledgers := s.ledgers[id := m]);
            && (m.reservations == s.ledgers[id].reservations ==> (SlotFree(t, slot) <==> SlotFree(s, slot)))
            && (m.attempts == s.ledgers[id].attempts ==> (KeySpent(t, incarnation, key) <==> KeySpent(s, incarnation, key)))
  {
    var t := s.(ledgers := s.ledgers[id := m]);
    if m.reservations == s.ledgers[id].reservations {
      assert forall x, k: nat :: Holds(t, x, k, slot) <==> Holds(s, x, k, slot);
    }
    if m.attempts == s.ledgers[id].attempts {
      assert forall x, a: nat :: KeyOf(t, x, a, incarnation, key) <==> KeyOf(s, x, a, incarnation, key);
    }
  }

  // What stands of the state while one request's rows change.
  predicate Beside(s: State, t: State, id: nat) { t == s.(ledgers := t.ledgers) && id in s.ledgers && id in t.ledgers && t.ledgers == s.ledgers[id := t.ledgers[id]] }

  lemma ClaimsRun(s: State, id: nat, x: Execution)
    requires Consistent(s) && id in s.ledgers && Inv(s.ledgers[id]) && Able(s, x)
    requires s.ledgers[id].state == Waiting && (s.ledgers[id].sourcesReady || !s.ledgers[id].firstClaimed)
    ensures var t := Run(s, Steps(Claiming(x), id));
            && Consistent(t) && Beside(s, t, id) && Inv(t.ledgers[id]) && Taken(t.ledgers[id], |s.ledgers[id].attempts|, x, s.incarnations[x.incarnation])
  {
    hide Run, Next, Inv, Consistent, SlotFree, KeySpent, ForeignKeys, Prepare, Reserve, Claim, Fits, Taken, Steps;
    var i, ops := s.incarnations[x.incarnation], Claiming(x);
    NoSteps(s, id);
    StepsGrow(s, [], ops[0], id);
    StepsGrow(s, [ops[0]], ops[1], id);
    StepsGrow(s, [ops[0], ops[1]], ops[2], id);
    assert [] + [ops[0]] == [ops[0]] && [ops[0]] + [ops[1]] == [ops[0], ops[1]] && [ops[0], ops[1]] + [ops[2]] == ops;
    Acts(s, id, ops[0], Nobody);
    var t1 := Next(s, Act(id, ops[0]));
    Claims(s.ledgers[id], x, i, true);
    Claims(s.ledgers[id], x, i, false);
    SameSlots(s, id, t1.ledgers[id], i.slot, x.incarnation, x.claimKey);
    Acts(t1, id, ops[1], i);
    var t2 := Next(t1, Act(id, ops[1]));
    SameSlots(t1, id, t2.ledgers[id], i.slot, x.incarnation, x.claimKey);
    Acts(t2, id, ops[2], i);
  }

  lemma NoSteps(s: State, id: nat)
    ensures Run(s, Steps([], id)) == s
  {
    assert Steps([], id) == [];
  }

  lemma FourSteps(s: State, a: Op, b: Op, c: Op, d: Op, id: nat)
    ensures Run(s, Steps([a, b, c, d], id)) == Next(Next(Next(Next(s, Act(id, a)), Act(id, b)), Act(id, c)), Act(id, d))
  {
    hide Run, Next, Steps;
    NoSteps(s, id);
    StepsGrow(s, [], a, id);
    StepsGrow(s, [a], b, id);
    StepsGrow(s, [a, b], c, id);
    StepsGrow(s, [a, b, c], d, id);
    assert [] + [a] == [a] && [a] + [b] == [a, b] && [a, b] + [c] == [a, b, c] && [a, b, c] + [d] == [a, b, c, d];
  }

  lemma HaltsRun(s: State, id: nat, a: nat, x: Execution, i: Incarnation, submitted: Report)
    requires Consistent(s) && id in s.ledgers && Inv(s.ledgers[id]) && Fits(x, i) && submitted.outcome == Succeeded
    requires var l := s.ledgers[id];
             && l.state == Running && a + 1 == |l.attempts| && !l.attempts[a].stopped && l.attempts[a].scopeId.Some?
             && RecordedScope(l.startedScopes, a, x.scope) && !Unresolved(l.publications)
    ensures var ops := Executed(a, x, submitted);
            var t := Next(Next(Next(s, Act(id, ops[1])), Act(id, ops[2])), Act(id, ops[3]));
            && Beside(s, t, id) && Inv(t.ledgers[id]) && t.ledgers[id].state == Succeeded && t.ledgers[id].results == [Result(Some(a), submitted)]
  {
    hide Run, Next, Inv, Consistent, SlotFree, KeySpent, ForeignKeys, SubmitStop, BeginResult, EndResult, Fits, RecordedScope, Unresolved;
    var ops := Executed(a, x, submitted);
    Halts(s.ledgers[id], a, x, i);
    Acts(s, id, ops[1], Nobody);
    var t2 := Next(s, Act(id, ops[1]));
    Stores(t2.ledgers[id], a, submitted);
    Acts(t2, id, ops[2], Nobody);
    var t3 := Next(t2, Act(id, ops[2]));
    Acts(t3, id, ops[3], Nobody);
  }

  lemma EndsRun(s: State, id: nat, a: nat, x: Execution, submitted: Report)
    requires Consistent(s) && id in s.ledgers && Inv(s.ledgers[id]) && x.incarnation in s.incarnations && !s.incarnations[x.incarnation].signedOff
    requires Taken(s.ledgers[id], a, x, s.incarnations[x.incarnation]) && Fits(x, s.incarnations[x.incarnation]) && submitted.outcome == Succeeded
    ensures var t := Run(s, Steps(Executed(a, x, submitted), id));
            && Beside(s, t, id) && Inv(t.ledgers[id]) && t.ledgers[id].state == Succeeded && t.ledgers[id].results == [Result(Some(a), submitted)]
  {
    hide Run, Next, Inv, Consistent, SlotFree, KeySpent, ForeignKeys, Start, Fits, RecordedScope, Unresolved, Steps;
    var i, ops := s.incarnations[x.incarnation], Executed(a, x, submitted);
    FourSteps(s, ops[0], ops[1], ops[2], ops[3], id);
    assert ops == [ops[0], ops[1], ops[2], ops[3]];
    Starts(s.ledgers[id], a, x, i);
    Acts(s, id, ops[0], i);
    HaltsRun(Next(s, Act(id, ops[0])), id, a, x, i, submitted);
  }

  // From any state in which a request waits and its sources are there or may still come, an able executor takes it to its success by
  // the ordinary transactions: prepared, reserved, claimed, started, stopped, and its result accepted. What is stored is the
  // submission, and the slot is free again.
  lemma WaitingSucceeds(s: State, id: nat, x: Execution, submitted: Report)
    requires Consistent(s) && id in s.ledgers && s.ledgers[id].state == Waiting && (s.ledgers[id].sourcesReady || !s.ledgers[id].firstClaimed)
    requires Able(s, x) && submitted.outcome == Succeeded
    ensures var a := |s.ledgers[id].attempts|;
            var t := Run(s, Steps(Claiming(x) + Executed(a, x, submitted), id));
            && id in t.ledgers && t.ledgers[id].state == Succeeded && t.ledgers[id].results == [Result(Some(a), submitted)]
            && (forall k :: 0 <= k < |t.ledgers[id].reservations| ==> t.ledgers[id].reservations[k].released)
            && SlotFree(t, s.incarnations[x.incarnation].slot)
  {
    hide Run, Next, Inv, Consistent, Sound, Kept, SlotFree, KeySpent, Fits, Taken, Claiming, Executed;
    DispatchFlows.Known(s, id);
    SoundKept(s.ledgers[id]);
    var a := |s.ledgers[id].attempts|;
    ClaimsRun(s, id, x);
    var m := Run(s, Steps(Claiming(x), id));
    EndsRun(m, id, a, x, submitted);
    assert Steps(Claiming(x) + Executed(a, x, submitted), id) == Steps(Claiming(x), id) + Steps(Executed(a, x, submitted), id);
    RunSplit(s, Steps(Claiming(x), id), Steps(Executed(a, x, submitted), id));
    var t := Run(m, Steps(Executed(a, x, submitted), id));
    AllReleased(t.ledgers[id]);
    FreeAgain(s, t, id, s.incarnations[x.incarnation].slot);
  }

  lemma FreeAgain(s: State, t: State, id: nat, slot: nat)
    requires SlotFree(s, slot) && id in t.ledgers && t.ledgers == s.ledgers[id := t.ledgers[id]]
    requires forall k :: 0 <= k < |t.ledgers[id].reservations| ==> t.ledgers[id].reservations[k].released
    ensures SlotFree(t, slot)
  {
    forall x, k: nat | x in t.ledgers && k < |t.ledgers[x].reservations| ensures !Holds(t, x, k, slot) {
      if x != id { assert !Holds(s, x, k, slot); }
    }
  }

  // A request that was ever reserved has its sources.
  predicate Sourced(l: Ledger) { l.generation > 0 ==> l.sourcesReady }

  lemma {:induction false} RunSources(steps: seq<Step>, id: nat)
    requires id in Run(Empty, steps).ledgers
    ensures Sourced(Run(Empty, steps).ledgers[id])
  {
    hide Next, Sourced, Sound;
    if |steps| > 0 {
      var before := steps[..|steps| - 1];
      Reachable(before);
      if id in Run(Empty, before).ledgers {
        RunSources(before, id);
        NextSources(Run(Empty, before), steps[|steps| - 1], id);
      } else {
        FirstSources(Run(Empty, before), steps[|steps| - 1], id);
      }
    }
  }

  lemma FirstSources(s: State, step: Step, id: nat)
    requires id !in s.ledgers && id in Next(s, step).ledgers
    ensures Sourced(Next(s, step).ledgers[id])
  {}

  lemma NextSources(s: State, step: Step, id: nat)
    requires Consistent(s) && id in s.ledgers && Sourced(s.ledgers[id])
    ensures id in Next(s, step).ledgers && Sourced(Next(s, step).ledgers[id])
  {
    hide Inv, Kept, Perform, SlotFree, KeySpent, Exclusive, KeysUnique, Bound, OneIncarnation, ForeignKeys;
    var l := s.ledgers[id];
    SoundKept(l);
    if step.Act? && step.id == id {
      var i := Speaker(s, l, step.op);
      if i.Some? { PerformSources(l, step.op, i.value, SlotFree(s, i.value.slot)); }
    }
  }

  lemma PerformSources(l: Ledger, op: Op, i: Incarnation, free: bool)
    requires ForeignKeys(l) && EndedHasResult(l) && Sourced(l)
    ensures Sourced(Perform(l, op, i, free).rows)
  {
    hide Perform, AttemptsEvolve, CandidatesEvolve, ReservationsEvolve, PublicationsEvolve, PermitsEvolve;
    PerformEvolves(l, op, i, free);
    if op.ReserveSlot? || op.ClaimAttempt? { TakesSources(l, op, i, free); } else { PerformCounts(l, op, i, free); }
  }

  lemma TakesSources(l: Ledger, op: Op, i: Incarnation, free: bool)
    requires ForeignKeys(l) && (op.ReserveSlot? || op.ClaimAttempt?)
    ensures var m := Perform(l, op, i, free).rows; m.sourcesReady == l.sourcesReady && (m.generation != l.generation ==> l.sourcesReady)
  {
    hide RetryAuthority;
  }

  // So in no reachable state is a waiting request stuck: whatever happened to it and to all others, an able executor takes it to its success.
  lemma WaitingRequestSucceeds(before: seq<Step>, id: nat, x: Execution, submitted: Report)
    requires id in Run(Empty, before).ledgers && Run(Empty, before).ledgers[id].state == Waiting
    requires Able(Run(Empty, before), x) && submitted.outcome == Succeeded
    ensures var s := Run(Empty, before); var a := |s.ledgers[id].attempts|;
            var t := Run(Empty, before + Steps(Claiming(x) + Executed(a, x, submitted), id));
            && id in t.ledgers && t.ledgers[id].state == Succeeded && t.ledgers[id].results == [Result(Some(a), submitted)]
            && (forall k :: 0 <= k < |t.ledgers[id].reservations| ==> t.ledgers[id].reservations[k].released)
            && SlotFree(t, s.incarnations[x.incarnation].slot)
  {
    hide Run, Next, Inv, Consistent, Sound, Kept, SlotFree, KeySpent, Fits, Claiming, Executed, Steps;
    var s := Run(Empty, before);
    Reachable(before);
    RunSources(before, id);
    DispatchFlows.Known(s, id);
    SoundKept(s.ledgers[id]);
    ClaimedWasReserved(s.ledgers[id]);
    WaitingSucceeds(s, id, x, submitted);
    RunSplit(Empty, before, Steps(Claiming(x) + Executed(|s.ledgers[id].attempts|, x, submitted), id));
  }

  lemma ClaimedWasReserved(l: Ledger)
    requires Inv(l) && Sourced(l)
    ensures l.sourcesReady || !l.firstClaimed
  {
    hide Scopes, Outbox, Sending, PendingResults, Stops, Retries, Publications, Results, Capacity, LockStep;
    if l.firstClaimed { assert l.attempts[0].candidate < |l.candidates|; }
  }
}
