// A stop that a retried, older attempt had accepted is replayed while the newer attempt is being cancelled: a reachable
// state in which the request ends under its live attempt, and the slot is lost for good.
module DispatchStale {
  import opened Options
  import opened DispatchRows
  import opened DispatchRules
  import opened DispatchInvariants
  import opened DispatchEvolution
  import opened DispatchSoundness
  import opened DispatchRuns
  import opened DispatchTheorems

  /* ---- what a stale stop does, from any consistent state, and for ever ---- */

  // The request is cancelled, its newest attempt still runs, and its slot stays reserved whatever happens later.
  lemma StaleStopLosesTheSlot(s: State, step: Step, after: seq<Step>)
    requires Consistent(s) && step.Act? && Stale(s, step, step.id)
    requires var l := s.ledgers[step.id]; ForeignKeys(l) && !SubmitStop(l, step.op.a, step.op.authorized, step.op.observation).answer.Refused?
    ensures step.id in Run(Next(s, step), after).ledgers
    ensures var l, m := s.ledgers[step.id], Run(Next(s, step), after).ledgers[step.id];
            && l.generation > 0 && m.state == Cancelled && m.generation == l.generation
            && l.generation <= |m.candidates| && Live(m.candidates[l.generation - 1].status)
            && Holds(Run(Next(s, step), after), step.id, l.generation - 1, l.candidates[l.generation - 1].slot)
            && !SlotFree(Run(Next(s, step), after), l.candidates[l.generation - 1].slot)
  {
    hide Inv, Kept, SubmitStop, StaleStop, Exclusive, KeysUnique, Bound, OneIncarnation, Run;
    var l := s.ledgers[step.id];
    StaleIsOpen(l, step.op.a);
    StaleRows(l, step.op.a, step.op.authorized, step.op.observation);
    StopIsNext(s, step.id, step.op);
    hide Next;
    EndedForever(Next(s, step), after, step.id);
  }

  lemma StopIsNext(s: State, id: nat, op: Op)
    requires id in s.ledgers && ForeignKeys(s.ledgers[id]) && op.StopAttempt?
    ensures id in Next(s, Act(id, op)).ledgers && Next(s, Act(id, op)).ledgers[id] == SubmitStop(s.ledgers[id], op.a, op.authorized, op.observation).rows
  {
    hide SubmitStop;
  }

  lemma StaleIsOpen(l: Ledger, a: nat)
    requires Sound(l) && a < |l.attempts| && StaleStop(l, a)
    ensures Inv(l)
  {
    hide Inv, Kept, Unresolved;
    SoundKept(l);
  }

  lemma StaleRows(l: Ledger, a: nat, authorized: bool, o: Observation)
    requires Inv(l) && a < |l.attempts| && StaleStop(l, a) && !SubmitStop(l, a, authorized, o).answer.Refused?
    ensures var m := SubmitStop(l, a, authorized, o).rows;
            && m.state == Cancelled && |m.results| > 0 && m.resultId.Some? && m.generation == l.generation > 0 && l.generation <= |l.candidates|
            && |m.candidates| == |l.candidates| && Live(m.candidates[l.generation - 1].status)
            && |m.reservations| == |l.candidates| && m.reservations[l.generation - 1] == Reservation(l.candidates[l.generation - 1].slot, false)
  {
    hide Inv, AcceptScopedStop;
    Keys(l);
    ScopedStopInv(l, a, o);
    var stop := AcceptScopedStop(l, a, o);
    Keys(stop.rows);
    SameCandidates(l, a, o);
    CurrentRow(l);
    LiveReservation(stop.rows);
    Shape(stop.rows);
    NoResults(l);
  }

  lemma SameCandidates(l: Ledger, a: nat, o: Observation)
    requires ForeignKeys(l) && a < |l.attempts|
    ensures AcceptScopedStop(l, a, o).rows.candidates == l.candidates
  {
    hide RecordedScope, HasStarted, Unresolved;
  }

  /* ---- a run that reaches it ---- */

  const Box := Incarnation(0, "boot", "image", "profile", false)
  const Container := Scope("scope", "boot", "image", "profile")
  const Halted := Observation(Container, "digest", false, true, true)

  const Steps: seq<Step> := [
    Register(0, Box), Submit(0),
    Act(0, PrepareSources(true)), Act(0, ReserveSlot(Host, 0, true, 0)), Act(0, ClaimAttempt(0, "first", true, true, 0)),
    Act(0, StartAttempt(0, Container, true, 0, 1_000_000)), Act(0, ExpireAttempt(0, LEASE_MS, 1_000_000)),
    Act(0, RecoverRequest(0, "retry", "retry", 5, FromRuntime(Halted), RetrySameContract, true, true)),
    Act(0, ReserveSlot(Host, 0, true, LEASE_MS)), Act(0, ClaimAttempt(0, "second", true, true, LEASE_MS)),
    Act(0, CancelRequest("cancel", 8, true))]

  const First := Candidate(Host, Some(0), 0, Reserved, false, LEASE_MS)
  const Second := First.(deadline := LEASE_MS + LEASE_MS)
  const Tried := Attempt(0, 0, "first", Claimed, None, None, 0, false, false)
  const Retried := Attempt(1, 0, "second", Claimed, None, None, LEASE_MS, false, false)
  const Started := Tried.(status := Running, scopeId := Some("scope"), startedAt := Some(0))
  const Over := Started.(status := Failed, stopped := true, revoked := true)
  const Held := Reservation(0, false)

  // The rows after each step that changes the request.
  const New := Submitted()
  const Ready := New.(sourcesReady := true)
  const Booked := Ready.(state := Reserved, version := 2, generation := 1, candidates := [First], reservations := [Held],
                         outbox := New.outbox + [Snapshot(2, Reserved, None)])
  const Taken := Booked.(state := Claimed, version := 3, candidates := [First.(status := Claimed, claimed := true)], attempts := [Tried], firstClaimed := true,
                         outbox := Booked.outbox + [Snapshot(3, Claimed, None)])
  const Begun := Taken.(state := Running, version := 4, candidates := [First.(status := Running, claimed := true)], attempts := [Started],
                        startedScopes := [StartedScope(0, Container)], permits := [StartPermit(0, 0, Container)],
                        outbox := Taken.outbox + [Snapshot(4, Running, None)])
  const Lost := Begun.(state := Uncertain, version := 5, candidates := [First.(status := Uncertain, claimed := true)], attempts := [Started.(status := Uncertain)],
                       outbox := Begun.outbox + [Snapshot(5, Uncertain, None)])
  const Again := Lost.(state := Waiting, version := 6, candidates := [First.(status := Finished, claimed := true)], attempts := [Over],
                       reservations := [Held.(released := true)], stops := [StopAccepted(0, ContainerStopped, "digest")],
                       authorizations := [RetryAuthorized(0, 1)], retryAuthorization := Some(0), recoveryActions := map["retry" := "retry"],
                       outbox := Lost.outbox + [Snapshot(6, Waiting, None)])
  const Rebooked := Again.(state := Reserved, version := 7, generation := 2, candidates := Again.candidates + [Second], reservations := Again.reservations + [Held],
                           outbox := Again.outbox + [Snapshot(7, Reserved, None)])
  const Retaken := Rebooked.(state := Claimed, version := 8, candidates := Again.candidates + [Second.(status := Claimed, claimed := true)],
                             attempts := [Over, Retried], consumed := [RetryConsumed(0, 1)], retryAuthorization := None,
                             outbox := Rebooked.outbox + [Snapshot(8, Claimed, None)])
  const Cancelling := Retaken.(state := CancelRequested, version := 9, candidates := Again.candidates + [Second.(status := CancelRequested, claimed := true)],
                               attempts := [Over, Retried.(status := CancelRequested, revoked := true)], cancelActions := map["cancel" := 8],
                               outbox := Retaken.outbox + [Snapshot(9, CancelRequested, None)])

  function One(l: Ledger): State { State(map[0 := l], map[0 := Box]) }

  lemma Extend(steps: seq<Step>, step: Step, s: State)
    requires CleanFor(Empty, steps, 0) && Run(Empty, steps) == s && !Stale(s, step, 0)
    ensures Run(Empty, steps + [step]) == Next(s, step) && CleanFor(Empty, steps + [step], 0)
  {
    assert (steps + [step])[..|steps|] == steps;
  }

  lemma Prepares()
    ensures Perform(New, PrepareSources(true), Nobody, true).rows == Ready
  {}

  lemma Reserves()
    ensures Perform(Ready, ReserveSlot(Host, 0, true, 0), Box, true).rows == Booked
  {}

  lemma Claims()
    ensures Perform(Booked, ClaimAttempt(0, "first", true, true, 0), Box, false).rows == Taken
  {}

  lemma ReservesAgain()
    ensures ForeignKeys(Again) && Perform(Again, ReserveSlot(Host, 0, true, LEASE_MS), Box, true).rows == Rebooked
  {
    assert Again.stops[0].attempt == 0;
  }

  lemma ClaimsAgain()
    ensures ForeignKeys(Rebooked) && Perform(Rebooked, ClaimAttempt(0, "second", true, true, LEASE_MS), Box, false).rows == Retaken
  {
    assert Again.stops[0].attempt == 0;
  }

  lemma Starts()
    ensures Perform(Taken, StartAttempt(0, Container, true, 0, 1_000_000), Box, false).rows == Begun
  {}

  lemma Expires()
    ensures Perform(Begun, ExpireAttempt(0, LEASE_MS, 1_000_000), Nobody, false).rows == Lost
  {}

  lemma Retrying()
    ensures Perform(Lost, RecoverRequest(0, "retry", "retry", 5, FromRuntime(Halted), RetrySameContract, true, true), Nobody, false).rows == Again
  {
    hide AcceptRecoveryStop, EndRecovery;
    Recovers();
    RetryOpens();
  }

  const Proven := Lost.(stops := [StopAccepted(0, ContainerStopped, "digest")], attempts := [Started.(status := Uncertain, stopped := true, revoked := true)])

  lemma Recovers()
    ensures ForeignKeys(Lost) && ForeignKeys(Proven) && AcceptRecoveryStop(Lost, 0, FromRuntime(Halted)) == Tx(Proven, StopReceipt(0))
  {
    assert Lost.startedScopes[0] == StartedScope(0, Container);
  }

  lemma RetryOpens()
    ensures ForeignKeys(Proven) && EndRecovery(Proven, 0, RetrySameContract, true) == Tx(Again.(recoveryActions := map[]), Done)
  {}

  lemma Cancels()
    ensures Perform(Retaken, CancelRequest("cancel", 8, true), Nobody, false).rows == Cancelling
  {
    hide CancelOpen;
    CancelsOpen();
  }

  lemma CancelsOpen()
    ensures ForeignKeys(Retaken) && CancelOpen(Retaken) == Tx(Cancelling.(cancelActions := map[]), Done)
  {
    hide FinishResult, Unresolved, RetryAuthority, RetireOpen;
    assert OpenCandidate(Retaken) == Some(1) && AttemptOf(Retaken.attempts, 1) == Some(1);
  }

  lemma Replays()
    ensures ForeignKeys(Cancelling) && StaleStop(Cancelling, 0) && SubmitStop(Cancelling, 0, true, Halted).answer == StopReceipt(0)
  {
    assert FindStop(Cancelling.stops, 0) == Some(0);
    assert RecordedScope(Cancelling.startedScopes, 0, Container) by { assert Cancelling.startedScopes[0] == StartedScope(0, Container); }
    assert AcceptScopedStop(Cancelling, 0, Halted) == Tx(Cancelling, StopReceipt(0));
    hide AcceptScopedStop;
    Finishes();
  }

  lemma Finishes()
    ensures !FinishStoppedCancellation(Cancelling, 0, StopReceipt(0)).answer.Refused?
  {}

  // Whether the slot is free matters to a reservation and a claim only.
  lemma FreeMatters(l: Ledger, op: Op, i: Incarnation, free: bool, other: bool)
    requires ForeignKeys(l) && !op.ReserveSlot? && !op.ClaimAttempt?
    ensures Perform(l, op, i, free) == Perform(l, op, i, other)
  {
    hide Prepare, Retire, RejectUnstarted, SubmitStop, SubmitClaimBoundStop, CloseOrphan, Cancel, Recover, BeginResult, EndResult, Start, Renew, Resume,
         Expire, BeginPublish, OpenSendGate, CallPort, ReturnPort, StoreReceipt, Crash, Reconcile, Resolve, FailPending;
  }

  // From state One(l) one operation leads to One(m), when it finds the rows that its guards ask for.
  lemma OneStep(steps: seq<Step>, l: Ledger, op: Op, m: Ledger, i: Incarnation, free: bool)
    requires CleanFor(Empty, steps, 0) && Run(Empty, steps) == One(l) && ForeignKeys(l) && Perform(l, op, i, free).rows == m
    requires !op.StopAttempt? && Speaker(One(l), l, op) == Some(i)
    requires op.ReserveSlot? ==> free && forall k :: 0 <= k < |l.reservations| ==> l.reservations[k].released
    requires op.ClaimAttempt? ==> !free && !SlotFree(One(l), i.slot) && forall a :: 0 <= a < |l.attempts| ==> l.attempts[a].claimKey != op.claimKey
    ensures CleanFor(Empty, steps + [Act(0, op)], 0) && Run(Empty, steps + [Act(0, op)]) == One(m)
  {
    hide Perform, ForeignKeys;
    var s := One(l);
    if !op.ReserveSlot? && !op.ClaimAttempt? { FreeMatters(l, op, i, free, SlotFree(s, i.slot)); }
    assert op.ReserveSlot? ==> SlotFree(s, i.slot);
    assert op.ClaimAttempt? ==> !KeySpent(s, op.incarnation, op.claimKey);
    Extend(steps, Act(0, op), s);
    assert s.ledgers[0 := m] == map[0 := m];
  }

  lemma Occupied(l: Ledger, k: nat)
    requires k < |l.reservations| && l.reservations[k] == Held
    ensures !SlotFree(One(l), 0)
  {
    assert Holds(One(l), 0, k, 0);
  }

  lemma FirstSteps()
    ensures CleanFor(Empty, Steps[..2], 0) && Run(Empty, Steps[..2]) == One(New)
  {
    Extend([], Steps[0], Empty);
    assert Steps[..1] == [] + [Steps[0]] && Steps[..2] == Steps[..1] + [Steps[1]];
    assert SignOff(map[], 0)[0 := Box] == map[0 := Box];
    Extend(Steps[..1], Steps[1], State(map[], map[0 := Box]));
    assert Empty.ledgers[0 := New] == map[0 := New];
  }

  lemma FirstClaim()
    ensures CleanFor(Empty, Steps[..5], 0) && Run(Empty, Steps[..5]) == One(Taken)
  {
    hide Perform, Run, CleanFor, SlotFree;
    FirstSteps();
    Prepares();
    Reserves();
    Claims();
    OneStep(Steps[..2], New, Steps[2].op, Ready, Nobody, true);
    assert Steps[..3] == Steps[..2] + [Steps[2]];
    OneStep(Steps[..3], Ready, Steps[3].op, Booked, Box, true);
    assert Steps[..4] == Steps[..3] + [Steps[3]];
    Occupied(Booked, 0);
    OneStep(Steps[..4], Booked, Steps[4].op, Taken, Box, false);
    assert Steps[..5] == Steps[..4] + [Steps[4]];
  }

  lemma FirstStart()
    ensures CleanFor(Empty, Steps[..6], 0) && Run(Empty, Steps[..6]) == One(Begun)
  {
    hide Perform, Run, CleanFor, SlotFree;
    FirstClaim();
    Starts();
    OneStep(Steps[..5], Taken, Steps[5].op, Begun, Box, false);
    assert Steps[..6] == Steps[..5] + [Steps[5]];
  }

  lemma FirstAttempt()
    ensures CleanFor(Empty, Steps[..7], 0) && Run(Empty, Steps[..7]) == One(Lost)
  {
    hide Perform, Run, CleanFor, SlotFree;
    FirstStart();
    Expires();
    OneStep(Steps[..6], Begun, Steps[6].op, Lost, Nobody, false);
    assert Steps[..7] == Steps[..6] + [Steps[6]];
  }

  lemma SecondReservation()
    ensures CleanFor(Empty, Steps[..9], 0) && Run(Empty, Steps[..9]) == One(Rebooked)
  {
    hide Perform, Run, CleanFor, SlotFree;
    FirstAttempt();
    ReservesAgain();
    Retrying();
    OneStep(Steps[..7], Lost, Steps[7].op, Again, Nobody, false);
    assert Steps[..8] == Steps[..7] + [Steps[7]];
    OneStep(Steps[..8], Again, Steps[8].op, Rebooked, Box, true);
    assert Steps[..9] == Steps[..8] + [Steps[8]];
  }

  lemma SecondAttempt()
    ensures CleanFor(Empty, Steps, 0) && Run(Empty, Steps) == One(Cancelling)
  {
    hide Perform, Run, CleanFor, SlotFree;
    SecondReservation();
    ReservesAgain();
    ClaimsAgain();
    Cancels();
    Occupied(Rebooked, 1);
    OneStep(Steps[..9], Rebooked, Steps[9].op, Retaken, Box, false);
    assert Steps[..10] == Steps[..9] + [Steps[9]];
    OneStep(Steps[..10], Retaken, Steps[10].op, Cancelling, Nobody, false);
    assert Steps == Steps[..10] + [Steps[10]];
  }

  // A supervisor that resends the stop of its first attempt is answered with its receipt, and the request of the second
  // attempt is gone: the state is reachable, and the stop is accepted.
  lemma StaleStopIsReachable()
    ensures exists steps: seq<Step>, step: Step ::
              && step.Act? && CleanFor(Empty, steps, step.id) && Stale(Run(Empty, steps), step, step.id)
              && var l := Run(Empty, steps).ledgers[step.id];
              ForeignKeys(l) && SubmitStop(l, step.op.a, step.op.authorized, step.op.observation).answer.StopReceipt?
  {
    hide Run, CleanFor, SubmitStop;
    SecondAttempt();
    Replays();
    var step := Act(0, StopAttempt(0, true, Halted));
    assert Stale(Run(Empty, Steps), step, 0);
  }
}
