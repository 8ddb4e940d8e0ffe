// The safety the dispatch service promises over whole runs: capacity, permits, results,
// retries, publications and the outbox.
module DispatchTheorems {
  import opened Options
  import opened DispatchRows
  import opened DispatchRules
  import opened DispatchInvariants
  import opened DispatchEvolution
  import opened DispatchFrames
  import opened DispatchSoundness
  import opened DispatchRuns

  /* ---- runs continue runs ---- */

  lemma {:induction false} RunSplit(s: State, before: seq<Step>, after: seq<Step>)
    ensures Run(s, before + after) == Run(Run(s, before), after)
  {
    hide Next;
    if |after| == 0 {
      assert before + after == before;
    } else {
      var shorter := after[..|after| - 1];
      RunSplit(s, before, shorter);
      assert (before + after)[..|before + after| - 1] == before + shorter;
    }
  }

  lemma NextEvolves(s: State, step: Step, id: nat)
    requires id in s.ledgers && EndedHasResult(s.ledgers[id])
    ensures id in Next(s, step).ledgers && Evolves(s.ledgers[id], Next(s, step).ledgers[id])
  {
    hide Evolves, EndedHasResult, Perform, ForeignKeys, SlotFree, KeySpent;
    Unchanged(s.ledgers[id]);
    if step.Act? && step.id == id && ForeignKeys(s.ledgers[id]) {
      var i := Speaker(s, s.ledgers[id], step.op);
      if i.Some? { PerformEvolves(s.ledgers[id], step.op, i.value, SlotFree(s, i.value.slot)); }
    }
  }

  // From any consistent state on, the rows of a request only evolve, and they stay sound.
  lemma {:induction false} Evolution(s: State, steps: seq<Step>, id: nat)
    requires Consistent(s) && id in s.ledgers
    ensures id in Run(s, steps).ledgers
    ensures var l, m := s.ledgers[id], Run(s, steps).ledgers[id]; Evolves(l, m) && Sound(l) && Sound(m)
  {
    hide Evolves, Sound, Next, Exclusive, KeysUnique, Bound, OneIncarnation;
    Unchanged(s.ledgers[id]);
    if |steps| > 0 {
      var shorter := steps[..|steps| - 1];
      Evolution(s, shorter, id);
      RunConsistent(s, steps);
      SoundKept(Run(s, shorter).ledgers[id]);
      NextEvolves(Run(s, shorter), steps[|steps| - 1], id);
      EvolvesTransitively(s.ledgers[id], Run(s, shorter).ledgers[id], Run(s, steps).ledgers[id]);
    }
  }

  // Along every run the rows of a request only evolve, and they are sound at both ends.
  lemma RunEvolves(before: seq<Step>, after: seq<Step>, id: nat)
    requires id in Run(Empty, before).ledgers
    ensures id in Run(Empty, before + after).ledgers
    ensures var l, m := Run(Empty, before).ledgers[id], Run(Empty, before + after).ledgers[id]; Evolves(l, m) && Sound(l) && Sound(m)
  {
    hide Evolves, Sound, Run, Consistent;
    Reachable(before);
    RunSplit(Empty, before, after);
    Evolution(Run(Empty, before), after, id);
  }

  // A request that ended with a result never changes again, whatever steps follow, stale ones included.
  lemma {:induction false} EndedForever(s: State, steps: seq<Step>, id: nat)
    requires id in s.ledgers && Terminal(s.ledgers[id].state) && EndedHasResult(s.ledgers[id])
    ensures id in Run(s, steps).ledgers && Frozen(s.ledgers[id], Run(s, steps).ledgers[id])
  {
    hide Next;
    if |steps| > 0 {
      EndedForever(s, steps[..|steps| - 1], id);
      NextEvolves(Run(s, steps[..|steps| - 1]), steps[|steps| - 1], id);
    }
  }

  /* ---- slots and lock step ---- */

  // In every reachable state open reservations of one slot, over all requests, are one reservation; and a reservation is open
  // exactly while its candidate is neither finished nor retired, and then it is the newest of its request.
  lemma SlotsAreExclusive(steps: seq<Step>, id: nat, k: nat, id': nat, k': nat)
    requires id in Run(Empty, steps).ledgers && id' in Run(Empty, steps).ledgers
    requires var s := Run(Empty, steps); k < |s.ledgers[id].candidates| && k' < |s.ledgers[id'].candidates|
    ensures var s := Run(Empty, steps);
            var r, r' := s.ledgers[id].reservations, s.ledgers[id'].reservations;
            && k < |r| && k' < |r'|
            && (r[k].released <==> Closed(s.ledgers[id].candidates[k])) && (!r[k].released ==> k + 1 == |r|)
            && (!r[k].released && !r'[k'].released && r[k].slot == r'[k'].slot ==> id == id' && k == k')
  {
    hide Sound, Next, Bound, KeysUnique, OneIncarnation;
    Reachable(steps);
    var s := Run(Empty, steps);
    SoundKept(s.ledgers[id]);
    SoundKept(s.ledgers[id']);
    KeptCapacity(s.ledgers[id]);
    KeptCapacity(s.ledgers[id']);
    if !s.ledgers[id].reservations[k].released && !s.ledgers[id'].reservations[k'].released
       && s.ledgers[id].reservations[k].slot == s.ledgers[id'].reservations[k'].slot {
      assert Holds(s, id, k, s.ledgers[id].reservations[k].slot);
      assert Holds(s, id', k', s.ledgers[id].reservations[k].slot);
    }
  }

  lemma KeptCapacity(l: Ledger)
    requires Kept(l)
    ensures Capacity(l.candidates, l.reservations) && |l.candidates| == |l.reservations| == l.generation
  {
    hide Attempted, Stops, Scopes, Results, Outbox, Publications, Sending, Retries, PendingResults;
  }

  // The live request's newest candidate and attempt carry its status, and the open reservation is on the slot the
  // attempt's incarnation lives on.
  predicate Agree(l: Ledger, incarnations: map<nat, Incarnation>) {
    && |l.attempts| > 0 && |l.candidates| == |l.reservations| == l.generation > 0
    && var a, c := l.attempts[|l.attempts| - 1], l.candidates[l.generation - 1];
    && a.candidate + 1 == l.generation && a.status == c.status == l.state && c.incarnation == Some(a.incarnation)
    && a.incarnation in incarnations && incarnations[a.incarnation].slot == c.slot
    && l.reservations[l.generation - 1] == Reservation(c.slot, false)
  }

  // As long as no stale stop hits this request, it is live exactly while it has a live attempt, and then the three rows agree.
  lemma LiveRowsAgree(steps: seq<Step>, id: nat)
    requires CleanFor(Empty, steps, id) && id in Run(Empty, steps).ledgers
    ensures var s := Run(Empty, steps); var l := s.ledgers[id];
            && (Live(l.state) ==> Agree(l, s.incarnations))
            && (Live(l.state) <==> exists a :: 0 <= a < |l.attempts| && Live(l.attempts[a].status))
  {
    hide Inv, Next, Exclusive, KeysUnique, BoundTo, OneIncarnation, Sound;
    Reachable(steps);
    RunTracks(Empty, steps, id);
    var s := Run(Empty, steps);
    LiveAgrees(s.ledgers[id], s.incarnations);
  }

  lemma LiveAgrees(l: Ledger, incarnations: map<nat, Incarnation>)
    requires Inv(l) && BoundTo(l, incarnations)
    ensures Live(l.state) ==> Agree(l, incarnations)
    ensures Live(l.state) <==> exists a :: 0 <= a < |l.attempts| && Live(l.attempts[a].status)
  {
    hide Inv;
    Shape(l);
    if Live(l.state) {
      CurrentRow(l);
      LiveCandidateOpen(l);
      LiveReservation(l);
    }
    forall a | 0 <= a < |l.attempts| && Live(l.attempts[a].status) ensures Live(l.state) { UnsettledIsLast(l, a); }
  }

  lemma LiveReservation(l: Ledger)
    requires Inv(l) && Live(l.state)
    ensures |l.attempts| > 0 && |l.candidates| > 0 && |l.reservations| == |l.candidates|
    ensures var a, c := l.attempts[|l.attempts| - 1], l.candidates[|l.candidates| - 1];
            c.status == l.state && c.incarnation == Some(a.incarnation) && l.reservations[|l.candidates| - 1] == Reservation(c.slot, false)
  {
    hide Scopes, Results, Outbox, Sending, Retries, PendingResults, Stops, History, Publications;
  }

  /* ---- capacity ---- */

  // The attempt of candidate k has stopped on recorded evidence.
  ghost predicate StoppedAttempt(l: Ledger, k: nat) {
    exists a :: 0 <= a < |l.attempts| && l.attempts[a].candidate == k && l.attempts[a].stopped && HasStop(l.stops, a)
  }

  lemma ReleasedIsSettled(l: Ledger, k: nat)
    requires Inv(l) && k < |l.candidates| && l.candidates[k].claimed && l.reservations[k].released
    ensures exists a :: 0 <= a < |l.attempts| && l.attempts[a].candidate == k && Settled(l.candidates, l.attempts[a]) && HasStop(l.stops, a)
  {
    hide Scopes, Results, Outbox, Publications, Sending, Retries, PendingResults;
    var a := AttemptOf(l.attempts, k);
    assert a.Some?;
    assert Closed(l.candidates[k]);
    assert Settled(l.candidates, l.attempts[a.value]);
  }

  lemma HeldIsLive(l: Ledger, k: nat)
    requires Inv(l) && k < |l.candidates| && l.candidates[k].claimed && !l.reservations[k].released
    ensures Live(l.state) && k + 1 == |l.candidates| == l.generation
  {
    hide Scopes, Results, Outbox, Publications, Sending, Retries, PendingResults, Stops;
    var a := AttemptOf(l.attempts, k);
    assert a.Some?;
    assert !Closed(l.candidates[k]);
    assert Settled(l.candidates, l.attempts[a.value]) || (Live(l.state) && a.value + 1 == |l.attempts|);
  }

  lemma ClosedHasNoUnresolved(l: Ledger)
    requires Inv(l) && |l.candidates| > 0 && Closed(l.candidates[|l.candidates| - 1])
    ensures !Unresolved(l.publications)
  {
    hide Scopes, Results, Outbox, Sending, Retries, PendingResults, Stops, History;
  }

  // Only reservations and claims make a generation, and neither touches a live request.
  lemma LiveKeepsGeneration(l: Ledger, op: Op, i: Incarnation, free: bool)
    requires Inv(l) && Live(l.state)
    ensures Perform(l, op, i, free).rows.generation == l.generation
  {
    hide Inv;
    Keys(l);
    if !op.ReserveSlot? && !op.ClaimAttempt? {
      hide Perform;
      PerformCounts(l, op, i, free);
    }
  }

  lemma ReleaseInRows(l: Ledger, op: Op, i: Incarnation, free: bool, k: nat)
    requires Inv(l) && !StaleOp(l, op)
    requires k < |l.candidates| && l.candidates[k].claimed && !l.reservations[k].released
    ensures var m := Perform(l, op, i, free).rows;
            && k < |m.reservations|
            && (m.reservations[k].released ==> StoppedAttempt(m, k) && !Unresolved(m.publications))
            && (m.reservations[k].released && !MayStop(op) ==> StoppedAttempt(l, k))
  {
    hide Inv, Perform, StoppedAttempt, Unresolved, Settled, StaleOp;
    PerformInv(l, op, i, free);
    Keys(l);
    PerformEvolves(l, op, i, free);
    LiveFacts(l, k);
    LiveKeepsGeneration(l, op, i, free);
    var m := Perform(l, op, i, free).rows;
    Shape(m);
    Shape(l);
    if m.reservations[k].released {
      ReleasedHere(l, m, k);
      if !MayStop(op) { ReleasedEarlier(l, op, i, free, k); }
    }
  }

  lemma Shape(l: Ledger)
    requires Inv(l)
    ensures |l.candidates| == |l.reservations| == l.generation
  {
    hide Scopes, Results, Outbox, Sending, Retries, PendingResults, Stops, History, LockStep, Publications;
  }

  lemma LiveFacts(l: Ledger, k: nat)
    requires Inv(l) && k < |l.candidates| && l.candidates[k].claimed && !l.reservations[k].released
    ensures Live(l.state) && k + 1 == l.generation
  {
    HeldIsLive(l, k);
  }

  lemma ReleasedHere(l: Ledger, m: Ledger, k: nat)
    requires Inv(l) && Inv(m) && Evolves(l, m) && k < |l.candidates| && l.candidates[k].claimed
    requires k + 1 == |m.candidates| == |m.reservations| && m.reservations[k].released
    ensures StoppedAttempt(m, k) && !Unresolved(m.publications)
  {
    hide Inv, Settled, Unresolved, AttemptsEvolve, ReservationsEvolve, PublicationsEvolve, PermitsEvolve, HistoriesGrow;
    assert CandidateEvolves(l.candidates[k], m.candidates[k]);
    ReleasedIsSettled(m, k);
    ReleasedIsClosed(m, k);
    ClosedHasNoUnresolved(m);
    var a :| 0 <= a < |m.attempts| && m.attempts[a].candidate == k && Settled(m.candidates, m.attempts[a]) && HasStop(m.stops, a);
    assert m.attempts[a].stopped by { SettledIsStopped(m.candidates, m.attempts[a]); }
  }

  lemma SettledIsStopped(cs: seq<Candidate>, a: Attempt)
    ensures Settled(cs, a) ==> a.stopped
  {}

  lemma ReleasedIsClosed(l: Ledger, k: nat)
    requires Inv(l) && k < |l.candidates|
    ensures l.reservations[k].released <==> Closed(l.candidates[k])
  {
    hide Scopes, Results, Outbox, Sending, Retries, PendingResults, Stops, History, LockStep, Publications;
  }

  // Without a new stop the released attempt had stopped before.
  lemma ReleasedEarlier(l: Ledger, op: Op, i: Incarnation, free: bool, k: nat)
    requires Inv(l) && !MayStop(op) && Live(l.state) && k + 1 == |l.candidates| && l.candidates[k].claimed && !l.reservations[k].released
    requires var m := Perform(l, op, i, free).rows; Inv(m) && StoppedAttempt(m, k) && k < |m.reservations| && m.reservations[k].released
    ensures StoppedAttempt(l, k)
  {
    hide Inv, Perform, Unresolved, AttemptsEvolve, ReservationsEvolve, PublicationsEvolve, PermitsEvolve, HistoriesGrow;
    Keys(l);
    var m := Perform(l, op, i, free).rows;
    NoStopAdded(l, op, i, free);
    var a :| 0 <= a < |m.attempts| && m.attempts[a].candidate == k && m.attempts[a].stopped && HasStop(m.stops, a);
    StopsNamed(l, a);
    PerformEvolves(l, op, i, free);
    AttemptStays(l, m, a);
  }

  lemma AttemptStays(l: Ledger, m: Ledger, a: nat)
    requires Evolves(l, m) && a < |l.attempts|
    ensures a < |m.attempts| && m.attempts[a].candidate == l.attempts[a].candidate
  {
    hide CandidatesEvolve, ReservationsEvolve, PublicationsEvolve, PermitsEvolve, HistoriesGrow;
    assert AttemptEvolves(l.attempts[a], m.attempts[a]);
  }

  lemma StopsNamed(l: Ledger, a: nat)
    requires Inv(l) && HasStop(l.stops, a)
    ensures a < |l.attempts| && l.attempts[a].stopped
  {
    hide Scopes, Results, Outbox, Sending, Retries, PendingResults, History, LockStep, Publications;
  }

  lemma NoStopAdded(l: Ledger, op: Op, i: Incarnation, free: bool)
    requires Inv(l) && !MayStop(op) && Live(l.state)
    ensures Perform(l, op, i, free).rows.stops == l.stops
  {
    hide Inv;
    Keys(l);
    if !op.ReserveSlot? && !op.ClaimAttempt? {
      hide Perform;
      PerformCounts(l, op, i, free);
    }
  }

  // Over every run: a step that releases the reservation of a claimed candidate leaves its attempt stopped on recorded
  // evidence with no publication unresolved; and unless that very step accepts evidence, it was stopped before.
  lemma CapacityNeedsStop(steps: seq<Step>, step: Step, id: nat, k: nat)
    requires id in Run(Empty, steps).ledgers
    requires var l := Run(Empty, steps).ledgers[id];
             k < |l.candidates| && k < |l.reservations| && l.candidates[k].claimed && !l.reservations[k].released
    ensures id in Run(Empty, steps + [step]).ledgers && k < |Run(Empty, steps + [step]).ledgers[id].reservations|
    ensures var l, m := Run(Empty, steps).ledgers[id], Run(Empty, steps + [step]).ledgers[id];
            m.reservations[k].released ==>
              && step.Act? && step.id == id
              && StoppedAttempt(m, k) && !Unresolved(m.publications)
              && (MayStop(step.op) || StoppedAttempt(l, k))
  {
    hide Sound, Perform, StoppedAttempt, Unresolved, SlotFree, KeySpent, Exclusive, KeysUnique, Bound, OneIncarnation;
    LastStep(steps, step);
    Reachable(steps);
    var s := Run(Empty, steps);
    var l := s.ledgers[id];
    if step.Act? && step.id == id && ForeignKeys(l) {
      var i := Speaker(s, l, step.op);
      if i.Some? { SoundRelease(l, step.op, i.value, SlotFree(s, i.value.slot), k); }
    }
  }

  lemma SoundRelease(l: Ledger, op: Op, i: Incarnation, free: bool, k: nat)
    requires Sound(l) && k < |l.candidates| && k < |l.reservations| && l.candidates[k].claimed && !l.reservations[k].released
    ensures ForeignKeys(l)
    ensures var m := Perform(l, op, i, free).rows;
            && k < |m.reservations|
            && (m.reservations[k].released ==> StoppedAttempt(m, k) && !Unresolved(m.publications))
            && (m.reservations[k].released && !MayStop(op) ==> StoppedAttempt(l, k))
  {
    hide Inv, Kept, Perform, StoppedAttempt, Unresolved, StaleOp;
    PerformSound(l, op, i, free);
    if Inv(l) && !StaleOp(l, op) { ReleaseInRows(l, op, i, free, k); }
  }

  lemma LastStep(steps: seq<Step>, step: Step)
    ensures Run(Empty, steps + [step]) == Next(Run(Empty, steps), step)
  {
    hide Next;
    assert (steps + [step])[..|steps|] == steps;
  }

  /* ---- start permits ---- */

  // The stops that need no scoped evidence: nothing ever ran under such an attempt.
  predicate Unscoped(kind: StopKind) { kind in {ClaimBound, SignedOffUnstarted} }

  // At most one stop is accepted, and an unscoped one only for an attempt that shows the unstarted signature.
  predicate OneStop(l: Ledger, m: Ledger)
    requires ForeignKeys(l)
  {
    || m.stops == l.stops
    || (|m.stops| == |l.stops| + 1 && m.stops[..|l.stops|] == l.stops
        && var e := m.stops[|l.stops|];
        e.attempt < |l.attempts| && (Unscoped(e.kind) ==> UnstartedSignature(l, e.attempt) && m.startedScopes == l.startedScopes))
  }

  // At most one stop is accepted, on scoped or attested evidence.
  predicate OneScoped(l: Ledger, m: Ledger) {
    || m.stops == l.stops
    || (|m.stops| == |l.stops| + 1 && m.stops[..|l.stops|] == l.stops
        && m.stops[|l.stops|].attempt < |l.attempts| && !Unscoped(m.stops[|l.stops|].kind))
  }

  lemma RecordsOne(l: Ledger, a: nat, kind: StopKind, digest: string)
    requires ForeignKeys(l) && a < |l.attempts| && !Unscoped(kind)
    ensures OneScoped(l, RecordStop(l, a, kind, digest).rows)
  {}

  lemma ScopedOne(l: Ledger, a: nat, o: Observation)
    requires ForeignKeys(l) && a < |l.attempts|
    ensures OneScoped(l, AcceptScopedStop(l, a, o).rows)
  {
    hide RecordStop, RecordedScope, HasStarted, Unresolved;
    RecordsOne(l, a, ContainerStopped, o.digest);
  }

  lemma RecoveryOne(l: Ledger, a: nat, e: RecoveryEvidence)
    requires ForeignKeys(l) && a < |l.attempts|
    ensures OneScoped(l, AcceptRecoveryStop(l, a, e).rows)
  {
    hide RecordStop, AcceptScopedStop, HasStarted;
    match e
    case FromRuntime(o) => ScopedOne(l, a, o);
    case Attested(rebooted, digest, valid) => RecordsOne(l, a, AttestedKind(rebooted), digest);
  }

  lemma StopsOne(l: Ledger, op: Op, i: Incarnation, free: bool)
    requires ForeignKeys(l) && (op.StopAttempt? || op.RecoverRequest?)
    ensures OneStop(l, Perform(l, op, i, free).rows)
  {
    hide UnstartedSignature, AcceptScopedStop, AcceptRecoveryStop, EndRecovery, FinishStoppedCancellation, Unresolved;
    if op.a < |l.attempts| {
      if op.StopAttempt? {
        ScopedOne(l, op.a, op.observation);
        var stop := AcceptScopedStop(l, op.a, op.observation);
        CancellationStarts(stop.rows, op.a, stop.answer);
      } else {
        RecoveryOne(l, op.a, op.evidence);
        RecoveryEndCounts(AcceptRecoveryStop(l, op.a, op.evidence).rows, op.a, op.mode, op.retryAllowed);
      }
    }
  }

  lemma CloseOne(l: Ledger, a: nat, kind: StopKind, digest: string, failure: Report, receipt: Answer)
    requires ForeignKeys(l) && a < |l.attempts| && UnstartedSignature(l, a)
    ensures OneStop(l, CloseUnstarted(l, a, kind, digest, failure, receipt).rows)
  {
    hide UnstartedSignature, FinishResult, FinishStoppedCancellation;
    var stopped := AcceptStop(l, a, kind, digest);
    CancellationStarts(stopped, a, receipt);
    FinishStarts(stopped, a, failure);
  }

  lemma ClaimBoundOne(l: Ledger, a: nat, authorized: bool, reason: string, digest: string, scopedEvidence: bool, timely: bool)
    requires ForeignKeys(l)
    ensures OneStop(l, SubmitClaimBoundStop(l, a, authorized, reason, digest, scopedEvidence, timely).rows)
  {
    hide OneStop, CloseUnstarted, UnstartedSignature;
    NoneIsOne(l, l);
    if a < |l.attempts| && UnstartedSignature(l, a) { CloseOne(l, a, ClaimBound, digest, ClaimBoundFailure(reason), StopReceipt(|l.stops|)); }
  }

  lemma OrphanOne(l: Ledger, a: nat, i: Incarnation)
    requires ForeignKeys(l)
    ensures OneStop(l, CloseOrphan(l, a, i).rows)
  {
    hide OneStop, CloseUnstarted, UnstartedSignature, HasStop;
    NoneIsOne(l, l);
    if a < |l.attempts| && UnstartedSignature(l, a) { CloseOne(l, a, SignedOffUnstarted, "", SignedOffBeforeStart, Done); }
  }

  lemma UnstartedOne(l: Ledger, op: Op, i: Incarnation, free: bool)
    requires ForeignKeys(l) && (op.StopUnstarted? || op.CloseSignedOff?)
    ensures OneStop(l, Perform(l, op, i, free).rows)
  {
    hide OneStop, SubmitClaimBoundStop, CloseOrphan;
    if op.StopUnstarted? { ClaimBoundOne(l, op.a, op.authorized, op.reason, op.digest, op.scopedEvidence, op.timely); }
    else { OrphanOne(l, op.a, i); }
  }

  lemma FinishStarts(l: Ledger, a: nat, report: Report)
    requires ForeignKeys(l) && a < |l.attempts|
    ensures var m := FinishResult(l, a, report, report).rows; m.stops == l.stops && m.startedScopes == l.startedScopes
  {
    hide Unresolved, Terminalize;
    var inserted := InsertResult(l, Some(a), report);
    if inserted.Some? { TerminalizeRows(Transition(inserted.value.0, report.outcome, Some(inserted.value.1)), a, report.outcome); }
  }

  lemma CancellationStarts(l: Ledger, a: nat, answer: Answer)
    requires ForeignKeys(l) && a < |l.attempts|
    ensures var m := FinishStoppedCancellation(l, a, answer).rows; m.stops == l.stops && m.startedScopes == l.startedScopes
  {
    hide FinishResult, Unresolved;
    FinishStarts(l, a, StoppedCancellation);
  }

  lemma PerformStopsOne(l: Ledger, op: Op, i: Incarnation, free: bool)
    requires ForeignKeys(l)
    ensures OneStop(l, Perform(l, op, i, free).rows)
  {
    hide OneStop, Perform;
    if op.StopAttempt? || op.RecoverRequest? { StopsOne(l, op, i, free); }
    else if op.StopUnstarted? || op.CloseSignedOff? { UnstartedOne(l, op, i, free); }
    else if op.ReserveSlot? || op.ClaimAttempt? { ReservesOne(l, op, i, free); }
    else { PerformCounts(l, op, i, free); NoneIsOne(l, Perform(l, op, i, free).rows); }
  }

  lemma NoneIsOne(l: Ledger, m: Ledger)
    requires ForeignKeys(l) && m.stops == l.stops
    ensures OneStop(l, m)
  {
    hide UnstartedSignature;
  }

  lemma ReservesOne(l: Ledger, op: Op, i: Incarnation, free: bool)
    requires ForeignKeys(l) && (op.ReserveSlot? || op.ClaimAttempt?)
    ensures OneStop(l, Perform(l, op, i, free).rows)
  {
    hide UnstartedSignature, RetryAuthority;
  }

  // Attempts closed without scoped evidence never started.
  predicate NeverStarted(l: Ledger) {
    forall i :: 0 <= i < |l.stops| && Unscoped(l.stops[i].kind) ==> !HasStarted(l.startedScopes, l.stops[i].attempt)
  }

  lemma StaysUnstarted(l: Ledger, m: Ledger)
    requires Kept(l) && ForeignKeys(l) && Kept(m) && Evolves(l, m) && OneStop(l, m) && NeverStarted(l)
    ensures NeverStarted(m)
  {
    hide Kept, Evolves, UnstartedSignature;
    HistoriesOf(l, m);
    forall i | 0 <= i < |m.stops| && Unscoped(m.stops[i].kind) ensures !HasStarted(m.startedScopes, m.stops[i].attempt) {
      if i < |l.stops| {
        assert m.stops[i] == l.stops[i];
        StoppedStaysUnstarted(l, m, i);
      } else {
        SignatureUnstarted(l, m.stops[i].attempt);
      }
    }
  }

  lemma HistoriesOf(l: Ledger, m: Ledger)
    requires Evolves(l, m)
    ensures l.stops <= m.stops && l.startedScopes <= m.startedScopes
  {
    hide AttemptsEvolve, CandidatesEvolve, ReservationsEvolve, PublicationsEvolve, PermitsEvolve;
  }

  lemma SignatureUnstarted(l: Ledger, a: nat)
    requires ForeignKeys(l) && a < |l.attempts|
    ensures UnstartedSignature(l, a) ==> !HasStarted(l.startedScopes, a)
  {}

  lemma StoppedStaysUnstarted(l: Ledger, m: Ledger, i: nat)
    requires Kept(l) && Kept(m) && Evolves(l, m) && i < |l.stops| && !HasStarted(l.startedScopes, l.stops[i].attempt)
    ensures !HasStarted(m.startedScopes, l.stops[i].attempt)
  {
    hide Kept, CandidatesEvolve, ReservationsEvolve, PublicationsEvolve, PermitsEvolve, HistoriesGrow;
    var a := l.stops[i].attempt;
    KeptStops(l);
    assert HasStop(l.stops, a);
    KeptFacts(l, a);
    assert AttemptEvolves(l.attempts[a], m.attempts[a]);
    KeptFacts(m, a);
  }

  lemma KeptStops(l: Ledger)
    requires Kept(l)
    ensures Stops(l.attempts, l.stops)
  {
    hide Capacity, Attempted, Scopes, Results, Outbox, Publications, Sending, Retries, PendingResults;
  }

  lemma KeptScopes(l: Ledger)
    requires Kept(l)
    ensures Scopes(l.attempts, l.startedScopes, l.permits)
  {
    hide Capacity, Attempted, Stops, Results, Outbox, Publications, Sending, Retries, PendingResults;
  }

  lemma {:induction false} RunNeverStarts(steps: seq<Step>, id: nat)
    requires id in Run(Empty, steps).ledgers
    ensures NeverStarted(Run(Empty, steps).ledgers[id])
  {
    hide Sound, Evolves, Perform, NeverStarted, OneStop, SlotFree, KeySpent, Exclusive, KeysUnique, Bound, OneIncarnation;
    var before := steps[..|steps| - 1];
    Reachable(steps);
    Reachable(before);
    var s, step := Run(Empty, before), steps[|steps| - 1];
    if id in s.ledgers {
      RunNeverStarts(before, id);
      NextNeverStarts(s, step, id);
    } else {
      NothingStarted();
    }
  }

  lemma NothingStarted()
    ensures NeverStarted(Submitted())
  {}

  lemma NextNeverStarts(s: State, step: Step, id: nat)
    requires Consistent(s) && Consistent(Next(s, step)) && id in s.ledgers && NeverStarted(s.ledgers[id])
    ensures id in Next(s, step).ledgers && NeverStarted(Next(s, step).ledgers[id])
  {
    hide Kept, Evolves, Perform, NeverStarted, OneStop, SlotFree, ForeignKeys, Consistent, EndedHasResult;
    KeptAt(s, id);
    NextEvolves(s, step, id);
    KeptAt(Next(s, step), id);
    var l, m := s.ledgers[id], Next(s, step).ledgers[id];
    if m != l {
      NextRows(s, step, id);
      hide Next;
      var i := Speaker(s, l, step.op).value;
      PerformStopsOne(l, step.op, i, SlotFree(s, i.slot));
      StaysUnstarted(l, m);
    }
  }

  lemma KeptAt(s: State, id: nat)
    requires Consistent(s) && id in s.ledgers
    ensures Kept(s.ledgers[id]) && ForeignKeys(s.ledgers[id]) && EndedHasResult(s.ledgers[id])
  {
    hide Sound, Kept, ForeignKeys, EndedHasResult, Exclusive, KeysUnique, Bound, OneIncarnation;
    SoundKept(s.ledgers[id]);
  }

  // A step changes a request's rows only by one transaction on them.
  lemma NextRows(s: State, step: Step, id: nat)
    requires id in s.ledgers && id in Next(s, step).ledgers && Next(s, step).ledgers[id] != s.ledgers[id]
    ensures step.Act? && step.id == id && ForeignKeys(s.ledgers[id]) && Speaker(s, s.ledgers[id], step.op).Some?
    ensures var i := Speaker(s, s.ledgers[id], step.op).value;
            Next(s, step).ledgers[id] == Perform(s.ledgers[id], step.op, i, SlotFree(s, i.slot)).rows
  {
    hide Perform, SlotFree, KeySpent, ForeignKeys;
  }

  // Whenever an attempt was closed by a claim-bound stop or by the sweep over signed-off incarnations, no start permit for
  // it exists: none was returned before, and none is ever returned later.
  lemma UnstartedNeverPermitted(steps: seq<Step>, id: nat, i: nat, p: nat)
    requires id in Run(Empty, steps).ledgers
    requires var l := Run(Empty, steps).ledgers[id]; i < |l.stops| && p < |l.permits| && Unscoped(l.stops[i].kind)
    ensures var l := Run(Empty, steps).ledgers[id]; l.permits[p].attempt != l.stops[i].attempt
  {
    hide Sound, Kept, Next;
    Reachable(steps);
    RunNeverStarts(steps, id);
    var l := Run(Empty, steps).ledgers[id];
    SoundKept(l);
    KeptScopes(l);
    assert PermitRecorded(l.startedScopes, l.permits[p]);
  }

  // All permits ever returned for one attempt name one scope and the attempt's own incarnation.
  lemma PermitsNameOneScope(steps: seq<Step>, id: nat, p: nat, q: nat)
    requires id in Run(Empty, steps).ledgers
    requires var l := Run(Empty, steps).ledgers[id]; p < |l.permits| && q < |l.permits| && l.permits[p].attempt == l.permits[q].attempt
    ensures var l := Run(Empty, steps).ledgers[id];
            && l.permits[p] == l.permits[q] && l.permits[p].attempt < |l.attempts|
            && l.permits[p].incarnation == l.attempts[l.permits[p].attempt].incarnation
            && l.attempts[l.permits[p].attempt].scopeId == Some(l.permits[p].scope.scopeId)
  {
    hide Sound, Kept, Next;
    Reachable(steps);
    var l := Run(Empty, steps).ledgers[id];
    SoundKept(l);
    KeptScopes(l);
    assert PermitRecorded(l.startedScopes, l.permits[p]) && PermitRecorded(l.startedScopes, l.permits[q]);
  }

  // A permit is returned only by a start of an attempt that is not revoked, for a scope of its own incarnation, while that
  // incarnation is not signed off.
  lemma PermitNeedsRights(steps: seq<Step>, step: Step, id: nat)
    requires id in Run(Empty, steps).ledgers
    ensures id in Run(Empty, steps + [step]).ledgers
    ensures var s := Run(Empty, steps);
            var l, m := s.ledgers[id], Run(Empty, steps + [step]).ledgers[id];
            m.permits != l.permits ==>
              && step.Act? && step.id == id && step.op.StartAttempt? && step.op.a < |l.attempts|
              && var row := l.attempts[step.op.a];
              && !row.revoked && !row.stopped && row.incarnation in s.incarnations
              && !s.incarnations[row.incarnation].signedOff && ScopeOfIncarnation(step.op.scope, s.incarnations[row.incarnation])
              && m.permits == l.permits + [StartPermit(step.op.a, row.incarnation, step.op.scope)]
  {
    hide Sound, Kept, SlotFree, KeySpent, Exclusive, KeysUnique, Bound, OneIncarnation, ScopeOfIncarnation;
    LastStep(steps, step);
    Reachable(steps);
    var s := Run(Empty, steps);
    var l := s.ledgers[id];
    SoundKept(l);
    if step.Act? && step.id == id && ForeignKeys(l) {
      var i := Speaker(s, l, step.op);
      if i.Some? { PerformPermits(l, step.op, i.value, SlotFree(s, i.value.slot)); }
    }
  }

  lemma PerformPermits(l: Ledger, op: Op, i: Incarnation, free: bool)
    requires Kept(l) && ForeignKeys(l)
    ensures var m := Perform(l, op, i, free).rows;
            m.permits != l.permits ==>
              && op.StartAttempt? && op.a < |l.attempts| && !l.attempts[op.a].revoked && !l.attempts[op.a].stopped
              && !i.signedOff && ScopeOfIncarnation(op.scope, i)
              && m.permits == l.permits + [StartPermit(op.a, l.attempts[op.a].incarnation, op.scope)]
  {
    hide Kept, Perform, ScopeOfIncarnation;
    if op.StartAttempt? { StartPermits(l, op, i, free); }
    else if op.ReserveSlot? || op.ClaimAttempt? { ReservePermits(l, op, i, free); }
    else { QuietPermits(l, op, i, free); }
  }

  lemma StartPermits(l: Ledger, op: Op, i: Incarnation, free: bool)
    requires Kept(l) && ForeignKeys(l) && op.StartAttempt?
    ensures var m := Perform(l, op, i, free).rows;
            m.permits != l.permits ==>
              && op.a < |l.attempts| && !l.attempts[op.a].revoked && !l.attempts[op.a].stopped
              && !i.signedOff && ScopeOfIncarnation(op.scope, i)
              && m.permits == l.permits + [StartPermit(op.a, l.attempts[op.a].incarnation, op.scope)]
  {
    hide Kept, ScopeOfIncarnation, Start;
    PermitOfStart(l, op.a, i, op.scope, op.authorized, op.now, op.maxDuration);
    if op.a < |l.attempts| { KeptFacts(l, op.a); }
  }

  lemma PermitOfStart(l: Ledger, a: nat, i: Incarnation, scope: Scope, authorized: bool, now: int, maxDuration: int)
    requires ForeignKeys(l)
    ensures var m := Start(l, a, i, scope, authorized, now, maxDuration).rows;
            m.permits != l.permits ==>
              && a < |l.attempts| && Active(l, a, i) && ScopeOfIncarnation(scope, i)
              && m.permits == l.permits + [StartPermit(a, l.attempts[a].incarnation, scope)]
  {
    hide ScopeOfIncarnation, RecordedScope, Active, MoveTogether;
    if a < |l.attempts| {
      MoveCounts(l.(startedScopes := l.startedScopes + [StartedScope(a, scope)]), a,
                 l.attempts[a].(status := Running, scopeId := Some(scope.scopeId), startedAt := Some(now), heartbeatAt := now));
    }
  }

  lemma ReservePermits(l: Ledger, op: Op, i: Incarnation, free: bool)
    requires ForeignKeys(l) && (op.ReserveSlot? || op.ClaimAttempt?)
    ensures var m := Perform(l, op, i, free).rows; m.permits == l.permits && m.portCalls == l.portCalls && (m.state == Succeeded ==> l.state == Succeeded) && m.publisher == l.publisher
  {
    hide RetryAuthority;
  }

  lemma QuietPermits(l: Ledger, op: Op, i: Incarnation, free: bool)
    requires ForeignKeys(l) && !op.ReserveSlot? && !op.ClaimAttempt? && !op.StartAttempt?
    ensures Perform(l, op, i, free).rows.permits == l.permits
  {
    hide Perform;
    if OfPort(op) || op.EndCompletion? { LoudPermits(l, op, i, free); } else { PerformCounts(l, op, i, free); }
  }

  lemma LoudPermits(l: Ledger, op: Op, i: Incarnation, free: bool)
    requires ForeignKeys(l) && (OfPort(op) || op.EndCompletion?)
    ensures Perform(l, op, i, free).rows.permits == l.permits
  {
    hide EndResult;
    if op.EndCompletion? { EndCounts(l, op.submission, op.authorized, op.publishable); }
  }
}
