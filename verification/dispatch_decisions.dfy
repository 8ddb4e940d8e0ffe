// What each transaction decides: exactly when it goes through, and the rows it then leaves, status by status.
module DispatchDecisions {
  import opened Options
  import opened DispatchRows
  import opened DispatchRules
  import opened DispatchInvariants
  import opened DispatchEvolution
  import opened DispatchSoundness
  import opened DispatchOutcomes

  /* ---- leases ---- */

  // The attempt may still act: it is the newest of an executing request, has kept its rights, and the incarnation is live on its slot.
  predicate HoldsRights(l: Ledger, a: nat, i: Incarnation)
    requires ForeignKeys(l) && a < |l.attempts|
  {
    && Executing(l.state) && a + 1 == |l.attempts| && !l.attempts[a].revoked
    && !i.signedOff && i.slot == l.candidates[l.attempts[a].candidate].slot
  }

  // The attempt's row became this one, and the request and its candidate carry its status.
  predicate MovedTo(l: Ledger, m: Ledger, a: nat, row: Attempt)
    requires ForeignKeys(l) && a < |l.attempts|
  {
    var k := l.attempts[a].candidate;
    && m.state == row.status && m.attempts == l.attempts[a := row] && m.candidates == l.candidates[k := l.candidates[k].(status := row.status)]
    && m == l.(state := m.state, version := m.version, attempts := m.attempts, candidates := m.candidates, outbox := m.outbox)
    && m.version == |m.outbox| > l.version && m.outbox[|m.outbox| - 1] == Snapshot(m.version, row.status, None)
  }

  lemma RightsExactly(l: Ledger, a: nat, i: Incarnation)
    requires Inv(l) && ForeignKeys(l) && a < |l.attempts|
    ensures HoldsRights(l, a, i) <==> Active(l, a, i)
    ensures Executing(l.state) && a + 1 == |l.attempts| <==> Current(l, a) && Executing(l.attempts[a].status)
    ensures Executing(l.state) && a + 1 == |l.attempts| ==> l.attempts[a].status == l.state && l.resultId == None && l.version == |l.outbox|
    ensures HoldsRights(l, a, i) ==> !l.attempts[a].stopped
  {
    hide Scopes, Sending, Retries, PendingResults, Publications, Capacity;
    assert Settled(l.candidates, l.attempts[a]) || (Live(l.state) && a + 1 == |l.attempts|);
  }

  lemma Moves(l: Ledger, a: nat, row: Attempt)
    requires ForeignKeys(l) && a < |l.attempts| && row.candidate == l.attempts[a].candidate && l.resultId == None && l.version == |l.outbox|
    ensures MovedTo(l, MoveTogether(l, a, row), a, row) && ForeignKeys(MoveTogether(l, a, row))
  {}

  lemma MovesTwice(l: Ledger, a: nat, row: Attempt, next: Attempt)
    requires ForeignKeys(l) && a < |l.attempts| && row.candidate == next.candidate == l.attempts[a].candidate && l.resultId == None && l.version == |l.outbox|
    ensures ForeignKeys(MoveTogether(l, a, row))
    ensures MovedTo(l, MoveTogether(MoveTogether(l, a, row), a, next), a, next)
  {
    var m, k := MoveTogether(l, a, row), l.attempts[a].candidate;
    var n := MoveTogether(m, a, next);
    assert n.attempts == l.attempts[a := next];
    assert n.candidates == l.candidates[k := l.candidates[k].(status := next.status)];
  }

  // A renewal in time keeps the lease and records the heartbeat, and nothing else. Any other asks for a stop: of an attempt that
  // may not act any more it changes nothing; without authority or behind the maximum duration it revokes the attempt; and a late
  // one leaves it uncertain, its heartbeat recorded.
  lemma RenewalDecides(l: Ledger, a: nat, i: Incarnation, scopeId: Option<string>, authorized: bool, now: int, maxDuration: int)
    requires Inv(l) && a < |l.attempts|
    ensures ForeignKeys(l)
    ensures var t, row := Renew(l, a, i, scopeId, authorized, now, maxDuration), l.attempts[a];
            var over := !authorized || (row.startedAt.Some? && now - row.startedAt.value >= maxDuration);
            var late := l.state == Uncertain || now - row.heartbeatAt >= LEASE_MS;
            && (!HoldsRights(l, a, i) ==> t == Tx(l, Lease(true)))
            && (HoldsRights(l, a, i) && row.scopeId != scopeId ==> t == Tx(l, Refused(Forbidden)))
            && (t.answer == Lease(false) <==> HoldsRights(l, a, i) && row.scopeId == scopeId && !over && !late)
            && (t.answer == Lease(false) ==> t.rows == l.(attempts := l.attempts[a := row.(heartbeatAt := now)]))
            && (HoldsRights(l, a, i) && row.scopeId == scopeId && over ==>
                  t.answer == Lease(true) && MovedTo(l, t.rows, a, row.(status := CancelRequested, revoked := true)))
            && (HoldsRights(l, a, i) && row.scopeId == scopeId && !over && late ==>
                  && t.answer == Lease(true) && t.rows.state == Uncertain && t.rows.attempts == l.attempts[a := row.(status := Uncertain, heartbeatAt := now)]
                  && (l.state == Uncertain ==> t.rows == l.(attempts := t.rows.attempts)))
  {
    hide Inv, Active, MoveTogether;
    Keys(l);
    RightsExactly(l, a, i);
    if HoldsRights(l, a, i) {
      var row := l.attempts[a];
      Moves(l, a, row.(status := Uncertain));
      Moves(l, a, row.(status := CancelRequested, revoked := true));
      MovesTwice(l, a, row.(status := Uncertain), row.(status := CancelRequested, revoked := true));
    }
  }

  // An expiry spares an attempt whose stop is accepted; else it revokes an attempt behind its maximum duration, and leaves one whose
  // lease has run out uncertain.
  lemma ExpiryDecides(l: Ledger, a: nat, now: int, maxDuration: int)
    requires Inv(l) && a < |l.attempts|
    ensures ForeignKeys(l)
    ensures var t, row := Expire(l, a, now, maxDuration), l.attempts[a];
            var spared := !Executing(l.state) || a + 1 < |l.attempts| || row.stopped;
            var over := row.startedAt.Some? && now - row.startedAt.value >= maxDuration;
            && (spared ==> t == Tx(l, Skipped))
            && (!spared && over ==> t.answer == Skipped && MovedTo(l, t.rows, a, row.(status := CancelRequested, revoked := true)))
            && (t.answer == Done <==> !spared && !over && l.state != Uncertain && now - row.heartbeatAt >= LEASE_MS)
            && (t.answer == Done ==> MovedTo(l, t.rows, a, row.(status := Uncertain)))
            && (!spared && !over && t.answer != Done ==> t == Tx(l, Skipped))
  {
    hide Inv, HasStop, MoveTogether, MovedTo;
    Keys(l);
    RowFacts(l, a);
    RightsExactly(l, a, Incarnation(0, "", "", "", false));
    if Executing(l.state) && a + 1 == |l.attempts| {
      var row := l.attempts[a];
      Moves(l, a, row.(status := Uncertain));
      Moves(l, a, row.(status := CancelRequested, revoked := true));
    }
  }

  lemma NamedScope(l: Ledger, a: nat, scope: Scope)
    requires Inv(l) && a < |l.attempts| && RecordedScope(l.startedScopes, a, scope)
    ensures l.attempts[a].scopeId == Some(scope.scopeId) && l.attempts[a].startedAt.Some?
  {
    hide InvRest;
  }

  // A start gives a permit exactly to a claimed or running attempt with all its rights, in its lease, for a scope of its
  // incarnation; a running one must name the scope it was started with. The first permit sets the request running.
  lemma StartDecides(l: Ledger, a: nat, i: Incarnation, scope: Scope, authorized: bool, now: int, maxDuration: int)
    requires Inv(l) && a < |l.attempts|
    ensures ForeignKeys(l)
    ensures var t, row := Start(l, a, i, scope, authorized, now, maxDuration), l.attempts[a];
            var permit := StartPermit(a, row.incarnation, scope);
            && (t.answer == Permit(permit) <==>
                  && HoldsRights(l, a, i) && l.state in {Claimed, Running} && ScopeOfIncarnation(scope, i) && authorized && now - row.heartbeatAt < LEASE_MS
                  && (l.state == Running ==> RecordedScope(l.startedScopes, a, scope) && row.startedAt.Some? && now - row.startedAt.value < maxDuration))
            && (t.answer != Permit(permit) ==> t.answer.Refused? && t.rows == l)
            && (t.answer == Permit(permit) && l.state == Running ==> t.rows == l.(permits := l.permits + [permit]))
            && (t.answer == Permit(permit) && l.state == Claimed ==>
                  && t.rows.permits == l.permits + [permit] && t.rows.startedScopes == l.startedScopes + [StartedScope(a, scope)]
                  && MovedTo(l, t.rows.(permits := l.permits, startedScopes := l.startedScopes), a,
                             row.(status := Running, scopeId := Some(scope.scopeId), startedAt := Some(now), heartbeatAt := now)))
  {
    hide Inv, Active, ScopeOfIncarnation, RecordedScope, MovedTo;
    Keys(l);
    RightsExactly(l, a, i);
    RowFacts(l, a);
    if HoldsRights(l, a, i) {
      if RecordedScope(l.startedScopes, a, scope) { NamedScope(l, a, scope); }
      StartedMoves(l, a, scope, l.attempts[a].(status := Running, scopeId := Some(scope.scopeId), startedAt := Some(now), heartbeatAt := now));
    }
  }

  lemma StartedMoves(l: Ledger, a: nat, scope: Scope, row: Attempt)
    requires ForeignKeys(l) && a < |l.attempts| && row.candidate == l.attempts[a].candidate && l.resultId == None && l.version == |l.outbox|
    ensures var m := MoveTogether(l.(startedScopes := l.startedScopes + [StartedScope(a, scope)]), a, row);
            m.permits == l.permits && m.startedScopes == l.startedScopes + [StartedScope(a, scope)] && MovedTo(l, m.(permits := l.permits, startedScopes := l.startedScopes), a, row)
  {}

  // Only an uncertain attempt with all its rights and duration left runs on, and only with the scope it was started with.
  lemma ResumptionDecides(l: Ledger, a: nat, i: Incarnation, scope: Scope, authorized: bool, now: int, maxDuration: int)
    requires Inv(l) && a < |l.attempts|
    ensures ForeignKeys(l)
    ensures var t, row := Resume(l, a, i, scope, authorized, now, maxDuration), l.attempts[a];
            && (t.answer == Done <==>
                  && HoldsRights(l, a, i) && l.state == Uncertain && ScopeOfIncarnation(scope, i) && RecordedScope(l.startedScopes, a, scope)
                  && authorized && row.startedAt.Some? && now - row.startedAt.value < maxDuration)
            && (t.answer == Done ==> MovedTo(l, t.rows, a, row.(status := Running, heartbeatAt := now)))
            && (t.answer != Done ==> t.answer.Refused? && t.rows == l)
  {
    hide Inv, Active, ScopeOfIncarnation, RecordedScope, MoveTogether, MovedTo;
    Keys(l);
    RightsExactly(l, a, i);
    RowFacts(l, a);
    if HoldsRights(l, a, i) {
      if RecordedScope(l.startedScopes, a, scope) { NamedScope(l, a, scope); }
      Moves(l, a, l.attempts[a].(status := Running, heartbeatAt := now));
    }
  }

  /* ---- the end of an attempt ---- */

  // The attempt ended the request with this result: attempt and candidate are over and the slot is free.
  predicate EndedBy(l: Ledger, m: Ledger, a: nat, report: Report)
    requires ForeignKeys(l) && a < |l.attempts|
  {
    var k := l.attempts[a].candidate;
    && m.state == report.outcome && m.results == [Result(Some(a), report)] && m.resultId == Some(0)
    && m.version == l.version + 1 && m.outbox == l.outbox + [Snapshot(l.version + 1, report.outcome, Some(report))]
    && |m.attempts| == |l.attempts| && m.attempts[a].status == report.outcome && m.attempts[a].stopped && m.attempts[a].revoked
    && |m.candidates| == |l.candidates| && m.candidates[k].status == Finished
    && (forall j :: 0 <= j < |m.reservations| ==> m.reservations[j].released)
  }

  lemma Finishes(l: Ledger, a: nat, report: Report, submitted: Report)
    requires Inv(l) && Live(l.state) && a + 1 == |l.attempts| && l.attempts[a].stopped && !Unresolved(l.publications)
    requires Terminal(report.outcome) && (report.outcome == Succeeded ==> l.attempts[a].scopeId.Some?)
    ensures ForeignKeys(l)
    ensures var t := FinishResult(l, a, report, submitted);
            && Inv(t.rows) && t.answer == Receipt(true, 0, report) && EndedBy(l, t.rows, a, report)
            && t.rows.accepted == [ResultAccepted(a, 0, submitted)] && t.rows.stops == l.stops && t.rows.publications == l.publications
            && t.rows.recoveryActions == l.recoveryActions && t.rows.cancelActions == l.cancelActions && t.rows.late == l.late
  {
    hide Inv, FinishResult, Unresolved;
    Keys(l);
    NoResults(l);
    FinishInv(l, a, report, submitted);
    FinishKeeps(l, a, report, submitted);
    FinishRows(l, a, report, submitted);
    AllReleased(FinishResult(l, a, report, submitted).rows);
  }

  lemma FinishRows(l: Ledger, a: nat, report: Report, submitted: Report)
    requires ForeignKeys(l) && a < |l.attempts| && !FinishResult(l, a, report, submitted).answer.Refused? && l.results == []
    ensures var m, k := FinishResult(l, a, report, submitted).rows, l.attempts[a].candidate;
            && m.resultId == Some(0) && m.version == l.version + 1 && m.outbox == l.outbox + [Snapshot(l.version + 1, report.outcome, Some(report))]
            && m.attempts == l.attempts[a := l.attempts[a].(status := report.outcome, revoked := true)]
            && m.candidates == l.candidates[k := l.candidates[k].(status := Finished)]
  {
    hide Unresolved;
  }

  lemma AllReleased(l: Ledger)
    requires Inv(l) && Terminal(l.state)
    ensures forall j :: 0 <= j < |l.reservations| ==> l.reservations[j].released
  {
    hide Scopes, Outbox, Sending, PendingResults, History, Stops, Retries, Publications, Results;
  }

  /* ---- stops ---- */

  // The evidence may be accepted as this attempt's stop: it has none yet, or this very one.
  predicate MayProve(l: Ledger, a: nat, kind: StopKind, digest: string)
    requires a < |l.attempts|
  {
    l.attempts[a].stopped ==> StopAccepted(a, kind, digest) in l.stops
  }

  // The observation checks out, and is of the scope the attempt was started with, or of one that was created without a start.
  predicate Observes(l: Ledger, a: nat, o: Observation)
    requires a < |l.attempts|
  {
    && o.authentic && o.timely && MayProve(l, a, ContainerStopped, o.digest)
    && if l.attempts[a].scopeId.None? then o.created && !Unresolved(l.publications) else RecordedScope(l.startedScopes, a, o.scope)
  }

  // The attempt has this stop, and nothing else has changed.
  predicate StoppedWith(l: Ledger, m: Ledger, a: nat, kind: StopKind, digest: string)
    requires a < |l.attempts|
  {
    && StopAccepted(a, kind, digest) in m.stops
    && if l.attempts[a].stopped then m == l
       else m == l.(stops := l.stops + [StopAccepted(a, kind, digest)], attempts := l.attempts[a := l.attempts[a].(stopped := true, revoked := true)])
  }

  lemma RecordDecides(l: Ledger, a: nat, kind: StopKind, digest: string)
    requires Inv(l) && a < |l.attempts|
    ensures ForeignKeys(l)
    ensures var t := RecordStop(l, a, kind, digest);
            && Inv(t.rows) && |t.rows.attempts| == |l.attempts|
            && (if MayProve(l, a, kind, digest) then t.answer.StopReceipt? && StoppedWith(l, t.rows, a, kind, digest) else t == Tx(l, Refused(Conflict)))
            && (t.answer.StopReceipt? ==> t.answer.stop < |t.rows.stops| && t.rows.stops[t.answer.stop] == StopAccepted(a, kind, digest))
  {
    hide Inv;
    Keys(l);
    RecordStopInv(l, a, kind, digest);
    OneStopEach(l, a);
    var earlier := FindStop(l.stops, a);
    if earlier.None? { assert !HasStop(l.stops, a); }
    assert earlier.None? ==> (l.stops + [StopAccepted(a, kind, digest)])[|l.stops|] == StopAccepted(a, kind, digest);
  }

  lemma OneStopEach(l: Ledger, a: nat)
    requires Inv(l) && a < |l.attempts|
    ensures l.attempts[a].stopped <==> HasStop(l.stops, a)
    ensures forall i, j :: 0 <= i < |l.stops| && 0 <= j < |l.stops| && l.stops[i].attempt == a && l.stops[j].attempt == a ==> i == j
  {
    hide Scopes, Outbox, Sending, PendingResults, History, Retries, Publications, Results, Capacity, LockStep;
  }

  lemma ObservationDecides(l: Ledger, a: nat, o: Observation)
    requires Inv(l) && a < |l.attempts|
    ensures ForeignKeys(l)
    ensures var t := AcceptScopedStop(l, a, o);
            && Inv(t.rows) && |t.rows.attempts| == |l.attempts|
            && (if Observes(l, a, o) then t.answer.StopReceipt? && StoppedWith(l, t.rows, a, ContainerStopped, o.digest) else t == Tx(l, Refused(Conflict)))
            && (t.answer.StopReceipt? ==> t.answer.stop < |t.rows.stops| && t.rows.stops[t.answer.stop] == StopAccepted(a, ContainerStopped, o.digest))
  {
    hide Inv, RecordStop, RecordedScope, HasStarted, HasStop, Unresolved, StoppedWith, MayProve;
    Keys(l);
    RowFacts(l, a);
    ClaimedOnce(l, a);
    if RecordedScope(l.startedScopes, a, o.scope) { NamedScope(l, a, o.scope); }
    RecordDecides(l, a, ContainerStopped, o.digest);
  }

  lemma ClaimedOnce(l: Ledger, a: nat)
    requires Inv(l) && a < |l.attempts|
    ensures l.attempts[a].candidate < |l.candidates| && l.candidates[l.attempts[a].candidate].claimed
  {
    hide Scopes, Outbox, Sending, PendingResults, Stops, Retries, Publications, Results, Capacity, LockStep;
  }

  // The attempt that a stop would end the cancellation of.
  predicate Cancelling(l: Ledger, a: nat) { l.state == CancelRequested && a + 1 == |l.attempts| && !Unresolved(l.publications) }

  // A stop is accepted exactly on evidence that proves it. It ends a cancelled request whose newest attempt it stops; of any other it
  // changes that attempt's row alone.
  lemma StopDecides(l: Ledger, a: nat, authorized: bool, o: Observation)
    requires Inv(l) && a < |l.attempts| && !StaleStop(l, a)
    ensures ForeignKeys(l)
    ensures var t := SubmitStop(l, a, authorized, o);
            && (t.answer.StopReceipt? <==> authorized && Observes(l, a, o))
            && (t.answer.StopReceipt? ==> t.answer.stop < |t.rows.stops| && t.rows.stops[t.answer.stop] == StopAccepted(a, ContainerStopped, o.digest))
            && (t.answer.StopReceipt? && Cancelling(l, a) ==> t.rows.state == Cancelled && EndedBy(l, t.rows, a, StoppedCancellation))
            && (t.answer.StopReceipt? && !Cancelling(l, a) ==> StoppedWith(l, t.rows, a, ContainerStopped, o.digest))
            && (!t.answer.StopReceipt? ==> t.answer.Refused? && t.rows == l)
  {
    hide Inv, AcceptScopedStop, FinishResult, Observes, Unresolved, EndedBy, StoppedWith, ForeignKeys;
    Keys(l);
    ObservationDecides(l, a, o);
    if Live(l.state) { NewestIsCurrent(l, a); }
    NoResults(l);
    if authorized && Observes(l, a, o) {
      var m := AcceptScopedStop(l, a, o).rows;
      Keys(m);
      StoppedRows(l, m, a, ContainerStopped, o.digest);
      if Cancelling(l, a) {
        Finishes(m, a, StoppedCancellation, StoppedCancellation);
        EndedAlso(l, m, FinishResult(m, a, StoppedCancellation, StoppedCancellation).rows, a, StoppedCancellation);
        EndedState(l, FinishResult(m, a, StoppedCancellation, StoppedCancellation).rows, a, StoppedCancellation);
      }
    }
  }

  lemma NewestIsCurrent(l: Ledger, a: nat)
    requires Inv(l) && ForeignKeys(l) && a < |l.attempts| && Live(l.state)
    ensures Current(l, a) <==> a + 1 == |l.attempts|
    ensures a + 1 == |l.attempts| ==> l.attempts[a].status == l.state
  {
    hide Scopes, Sending, Results, Outbox, Retries, PendingResults, Publications, Stops, Capacity;
  }

  // A request ended from rows that differ in the attempt's stop alone ended from these.
  lemma EndedAlso(l: Ledger, stopped: Ledger, m: Ledger, a: nat, report: Report)
    requires ForeignKeys(l) && ForeignKeys(stopped) && a < |l.attempts| == |stopped.attempts|
    requires stopped == l.(stops := stopped.stops, attempts := stopped.attempts) && stopped.attempts[a].candidate == l.attempts[a].candidate
    requires EndedBy(stopped, m, a, report)
    ensures EndedBy(l, m, a, report)
  {}

  // The newest attempt, which was claimed and never given a scope or stopped.
  predicate NeverBegan(l: Ledger, a: nat)
    requires a < |l.attempts|
  {
    Unstarted(l.state) && a + 1 == |l.attempts| && l.attempts[a].scopeId.None? && !l.attempts[a].stopped
  }

  lemma NeverBeganExactly(l: Ledger, a: nat)
    requires Inv(l) && a < |l.attempts|
    ensures ForeignKeys(l) && (NeverBegan(l, a) <==> UnstartedSignature(l, a)) && (NeverBegan(l, a) ==> !HasStop(l.stops, a))
  {
    hide Inv, HasStop, HasStarted, Unresolved;
    Keys(l);
    RowFacts(l, a);
    ClaimedOnce(l, a);
    NoResults(l);
    if Live(l.state) { NewestIsCurrent(l, a); }
    if NeverBegan(l, a) { UnstoppedPublications(l); }
  }

  // Closing it ends the request: failed for this reason, or cancelled when a cancel was waiting for it.
  lemma ClosesUnstarted(l: Ledger, a: nat, kind: StopKind, digest: string, failure: Report, receipt: Answer)
    requires Inv(l) && a < |l.attempts| && NeverBegan(l, a) && failure.outcome == Failed && !receipt.Refused?
    ensures ForeignKeys(l)
    ensures var t := CloseUnstarted(l, a, kind, digest, failure, receipt);
            && t.answer == receipt && t.rows.stops == l.stops + [StopAccepted(a, kind, digest)]
            && t.rows.state == (if l.state == CancelRequested then Cancelled else Failed)
            && EndedBy(l, t.rows, a, if l.state == CancelRequested then StoppedCancellation else failure)
  {
    hide Inv, FinishResult, Unresolved, EndedBy;
    Keys(l);
    NoResults(l);
    UnstoppedPublications(l);
    AcceptStopInv(l, a, kind, digest);
    var m, report := AcceptStop(l, a, kind, digest), if l.state == CancelRequested then StoppedCancellation else failure;
    Finishes(m, a, report, report);
    EndedAlso(l, m, FinishResult(m, a, report, report).rows, a, report);
    EndedState(l, FinishResult(m, a, report, report).rows, a, report);
  }

  lemma EndedState(l: Ledger, m: Ledger, a: nat, report: Report)
    requires ForeignKeys(l) && a < |l.attempts| && EndedBy(l, m, a, report)
    ensures m.state == report.outcome && m.results == [Result(Some(a), report)]
  {}

  lemma Found(stops: seq<StopAccepted>, a: nat)
    ensures HasStop(stops, a) <==> FindStop(stops, a).Some?
  {}

  // A claim-bound stop ends the request exactly when its newest attempt never began; a replay changes nothing.
  lemma ClaimBoundStopDecides(l: Ledger, a: nat, authorized: bool, reason: string, digest: string, scopedEvidence: bool, timely: bool)
    requires Inv(l) && a < |l.attempts|
    ensures ForeignKeys(l)
    ensures var t := SubmitClaimBoundStop(l, a, authorized, reason, digest, scopedEvidence, timely);
            && (t.answer.StopReceipt? <==>
                  authorized && if l.attempts[a].stopped then StopAccepted(a, ClaimBound, digest) in l.stops else NeverBegan(l, a) && !scopedEvidence && timely)
            && (t.answer.StopReceipt? && !l.attempts[a].stopped ==>
                  && t.rows.stops == l.stops + [StopAccepted(a, ClaimBound, digest)]
                  && t.rows.state == (if l.state == CancelRequested then Cancelled else Failed)
                  && EndedBy(l, t.rows, a, if l.state == CancelRequested then StoppedCancellation else ClaimBoundFailure(reason)))
            && (!t.answer.StopReceipt? || l.attempts[a].stopped ==> t.rows == l)
  {
    hide Inv, CloseUnstarted, UnstartedSignature, HasStop, EndedBy;
    Keys(l);
    RowFacts(l, a);
    OneStopEach(l, a);
    NeverBeganExactly(l, a);
    Found(l.stops, a);
    if NeverBegan(l, a) { ClosesUnstarted(l, a, ClaimBound, digest, ClaimBoundFailure(reason), StopReceipt(|l.stops|)); }
  }

  // The sweep closes exactly the attempts that never began and whose incarnation is signed off.
  lemma OrphanDecides(l: Ledger, a: nat, i: Incarnation)
    requires Inv(l) && a < |l.attempts|
    ensures ForeignKeys(l)
    ensures var t := CloseOrphan(l, a, i);
            && (t.answer == Done <==> i.signedOff && NeverBegan(l, a))
            && (t.answer == Done ==>
                  && t.rows.stops == l.stops + [StopAccepted(a, SignedOffUnstarted, "")]
                  && t.rows.state == (if l.state == CancelRequested then Cancelled else Failed)
                  && EndedBy(l, t.rows, a, if l.state == CancelRequested then StoppedCancellation else SignedOffBeforeStart))
            && (t.answer != Done ==> t == Tx(l, Skipped))
  {
    hide Inv, CloseUnstarted, UnstartedSignature, HasStop, EndedBy;
    Keys(l);
    NeverBeganExactly(l, a);
    if NeverBegan(l, a) { ClosesUnstarted(l, a, SignedOffUnstarted, "", SignedOffBeforeStart, Done); }
  }

  /* ---- recovery ---- */

  function KindOf(e: RecoveryEvidence): StopKind {
    match e
    case FromRuntime(_) => ContainerStopped
    case Attested(rebooted, _, _) => if rebooted then RuntimeRebooted else OperatorAttested
  }

  function DigestOf(e: RecoveryEvidence): string { if e.Attested? then e.digest else e.observation.digest }

  predicate ProvesStop(l: Ledger, a: nat, e: RecoveryEvidence)
    requires a < |l.attempts|
  {
    match e
    case FromRuntime(o) => Observes(l, a, o)
    case Attested(_, digest, valid) => valid && MayProve(l, a, KindOf(e), digest)
  }

  lemma EvidenceDecides(l: Ledger, a: nat, e: RecoveryEvidence)
    requires Inv(l) && a < |l.attempts|
    ensures ForeignKeys(l)
    ensures var t := AcceptRecoveryStop(l, a, e);
            && Inv(t.rows) && |t.rows.attempts| == |l.attempts|
            && (if ProvesStop(l, a, e) then t.answer.StopReceipt? && StoppedWith(l, t.rows, a, KindOf(e), DigestOf(e)) else t == Tx(l, Refused(Conflict)))
  {
    hide Inv, AcceptScopedStop, RecordStop, HasStarted, StoppedWith, Observes, MayProve;
    Keys(l);
    RowFacts(l, a);
    match e
    case FromRuntime(o) => ObservationDecides(l, a, o);
    case Attested(_, digest, _) => RecordDecides(l, a, KindOf(e), digest);
  }

  // What an operator may recover: the newest attempt of an uncertain or cancelled request with nothing of it under way.
  predicate Recoverable(l: Ledger, a: nat, expectedVersion: nat) {
    l.state in {Uncertain, CancelRequested} && a + 1 == |l.attempts| && l.version == expectedVersion && !Unresolved(l.publications)
  }

  // The attempt failed and may be retried once, under this contract's own generation.
  predicate RetriedFrom(l: Ledger, m: Ledger, a: nat)
    requires ForeignKeys(l) && a < |l.attempts|
  {
    var k := l.attempts[a].candidate;
    && m.state == Waiting && m.results == [] && m.resultId == None && m.generation == l.generation && m.version == l.version + 1
    && m.authorizations == l.authorizations + [RetryAuthorized(a, l.generation)] && m.retryAuthorization == Some(|l.authorizations|)
    && (forall j :: 0 <= j < |m.consumed| ==> m.consumed[j].authorization != |l.authorizations|)
    && |m.attempts| == |l.attempts| && m.attempts[a].status == Failed && m.attempts[a].stopped && m.attempts[a].revoked
    && |m.candidates| == |l.candidates| && m.candidates[k].status == Finished
    && (forall j :: 0 <= j < |m.reservations| ==> m.reservations[j].released)
    && RetryAuthority(m)
  }

  function ClosedAs(outcome: Status): Report {
    Report(outcome, "Execution closed through explicit recovery", "The authorized recovery decision and stop evidence are preserved in the audit.", None)
  }

  lemma OpenRequest(l: Ledger)
    requires Inv(l) && Live(l.state)
    ensures l.resultId == None && l.results == [] && l.version == |l.outbox| && l.generation == |l.candidates|
    ensures |l.authorizations| == |l.consumed| && forall j :: 0 <= j < |l.consumed| ==> l.consumed[j].authorization < |l.authorizations|
  {
    hide Scopes, Sending, PendingResults, LockStep, Capacity, History, Stops, Publications;
  }

  lemma ClosedOutcome()
    ensures ClosedAs(Failed).outcome == Failed && ClosedAs(Cancelled).outcome == Cancelled
    ensures RecoveryReport(CloseFailed) == ClosedAs(Failed) && RecoveryReport(CloseCancelled) == ClosedAs(Cancelled)
  {}

  // What the recovery leaves: a request ended failed or cancelled, as asked, or one that waits for its retry.
  predicate Recovered(l: Ledger, m: Ledger, a: nat, mode: RecoveryMode)
    requires ForeignKeys(l) && a < |l.attempts|
  {
    match mode
    case CloseFailed => m.state == Failed && EndedBy(l, m, a, ClosedAs(Failed))
    case CloseCancelled => m.state == Cancelled && EndedBy(l, m, a, ClosedAs(Cancelled))
    case RetrySameContract => m.state == Waiting && RetriedFrom(l, m, a)
  }

  lemma RetryDecides(l: Ledger, a: nat, allowed: bool)
    requires Inv(l) && ForeignKeys(l) && Live(l.state) && a + 1 == |l.attempts| && l.attempts[a].stopped && !Unresolved(l.publications)
    ensures var t := AuthorizeRetry(l, a, allowed);
            if l.state == Uncertain && allowed
            then t.answer == Done && t.rows.state == Waiting && RetriedFrom(l, t.rows, a) && t.rows.stops == l.stops && t.rows.recoveryActions == l.recoveryActions
            else t.answer.Refused?
  {
    hide Inv, Unresolved, RetryAuthority;
    OpenRequest(l);
    if l.state == Uncertain && allowed {
      var m := AuthorizeRetry(l, a, allowed).rows;
      AuthorizeRetryInv(l, a, allowed);
      EverClaimed(l);
      WaitingIsAuthorized(m);
      NothingOpen(m);
    }
  }

  lemma EverClaimed(l: Ledger)
    requires Inv(l) && |l.attempts| > 0
    ensures l.firstClaimed
  {}

  lemma NothingOpen(l: Ledger)
    requires Inv(l) && l.state == Waiting
    ensures forall j :: 0 <= j < |l.reservations| ==> l.reservations[j].released
    ensures l.results == []
  {
    hide Scopes, Outbox, Sending, PendingResults, History, Stops, Retries, Publications;
  }

  // What follows an accepted stop.
  lemma RecoveryEnds(l: Ledger, a: nat, e: RecoveryEvidence, mode: RecoveryMode, retryAllowed: bool)
    requires Inv(l) && ForeignKeys(l) && l.state in {Uncertain, CancelRequested} && a + 1 == |l.attempts| && !Unresolved(l.publications) && ProvesStop(l, a, e)
    ensures var stop := AcceptRecoveryStop(l, a, e);
            && ForeignKeys(stop.rows) && |stop.rows.attempts| == |l.attempts| && stop.answer.StopReceipt?
            && var t := EndRecovery(stop.rows, a, mode, retryAllowed);
            && (t.answer.Refused? <==> mode == RetrySameContract && !(l.state == Uncertain && retryAllowed))
            && (!t.answer.Refused? ==>
                  t.rows.recoveryActions == l.recoveryActions && StopAccepted(a, KindOf(e), DigestOf(e)) in t.rows.stops && Recovered(l, t.rows, a, mode))
  {
    hide Inv, AcceptRecoveryStop, EndRecovery, ProvesStop, Unresolved, KindOf, DigestOf, ForeignKeys, StoppedWith, Recovered;
    EvidenceDecides(l, a, e);
    RecoveryStopInv(l, a, e);
    var m := AcceptRecoveryStop(l, a, e).rows;
    Keys(m);
    StoppedRows(l, m, a, KindOf(e), DigestOf(e));
    StoppedEnds(l, m, a, mode, retryAllowed);
  }

  lemma StoppedEnds(l: Ledger, m: Ledger, a: nat, mode: RecoveryMode, retryAllowed: bool)
    requires Inv(m) && ForeignKeys(l) && ForeignKeys(m) && Live(m.state) && a + 1 == |m.attempts| == |l.attempts| && m.attempts[a].stopped && !Unresolved(m.publications)
    requires m == l.(stops := m.stops, attempts := m.attempts) && m.attempts[a].candidate == l.attempts[a].candidate
    ensures var t := EndRecovery(m, a, mode, retryAllowed);
            && (t.answer.Refused? <==> mode == RetrySameContract && !(l.state == Uncertain && retryAllowed))
            && (!t.answer.Refused? ==> t.rows.recoveryActions == l.recoveryActions && t.rows.stops == m.stops && Recovered(l, t.rows, a, mode))
  {
    hide Inv, FinishResult, AuthorizeRetry, Unresolved, EndedBy, RetriedFrom, ForeignKeys, ClosedAs, RecoveryReport;
    ClosedOutcome();
    if mode == RetrySameContract {
      RetryDecides(m, a, retryAllowed);
      if l.state == Uncertain && retryAllowed { RetriedAlso(l, m, AuthorizeRetry(m, a, retryAllowed).rows, a); }
    } else {
      RecoveryCloses(l, m, a, ClosedAs(if mode == CloseFailed then Failed else Cancelled));
    }
  }

  lemma StoppedRows(l: Ledger, m: Ledger, a: nat, kind: StopKind, digest: string)
    requires ForeignKeys(l) && a < |l.attempts| && StoppedWith(l, m, a, kind, digest)
    ensures m == l.(stops := m.stops, attempts := m.attempts) && |m.attempts| == |l.attempts| && m.attempts[a].candidate == l.attempts[a].candidate
    ensures StopAccepted(a, kind, digest) in m.stops && m.attempts[a].stopped
  {}

  lemma RecoveryCloses(l: Ledger, m: Ledger, a: nat, report: Report)
    requires Inv(m) && ForeignKeys(l) && ForeignKeys(m) && Live(m.state) && a + 1 == |m.attempts| == |l.attempts| && m.attempts[a].stopped && !Unresolved(m.publications)
    requires m == l.(stops := m.stops, attempts := m.attempts) && m.attempts[a].candidate == l.attempts[a].candidate && report.outcome in {Failed, Cancelled}
    ensures var t := FinishResult(m, a, report, report);
            && t.answer.Receipt? && t.rows.state == report.outcome && EndedBy(l, t.rows, a, report) && t.rows.stops == m.stops && t.rows.recoveryActions == l.recoveryActions
  {
    hide Inv, FinishResult, Unresolved, EndedBy;
    Finishes(m, a, report, report);
    EndedAlso(l, m, FinishResult(m, a, report, report).rows, a, report);
    EndedState(l, FinishResult(m, a, report, report).rows, a, report);
  }

  lemma RetriedAlso(l: Ledger, stopped: Ledger, m: Ledger, a: nat)
    requires ForeignKeys(l) && ForeignKeys(stopped) && a < |l.attempts| == |stopped.attempts|
    requires stopped == l.(stops := stopped.stops, attempts := stopped.attempts) && stopped.attempts[a].candidate == l.attempts[a].candidate
    requires RetriedFrom(stopped, m, a)
    ensures RetriedFrom(l, m, a)
  {
    hide RetryAuthority;
  }

  lemma KeyRecorded(l: Ledger, m: Ledger, a: nat, mode: RecoveryMode, actions: map<string, string>)
    requires ForeignKeys(l) && a < |l.attempts| && Recovered(l, m, a, mode)
    ensures Recovered(l, m.(recoveryActions := actions), a, mode)
  {
    hide EndedBy, RetriedFrom;
    KeyBesideEnd(l, m, a, ClosedAs(Failed), actions);
    KeyBesideEnd(l, m, a, ClosedAs(Cancelled), actions);
    KeyBesideRetry(l, m, a, actions);
  }

  lemma KeyBesideEnd(l: Ledger, m: Ledger, a: nat, report: Report, actions: map<string, string>)
    requires ForeignKeys(l) && a < |l.attempts|
    ensures EndedBy(l, m, a, report) ==> EndedBy(l, m.(recoveryActions := actions), a, report)
  {}

  lemma KeyBesideRetry(l: Ledger, m: Ledger, a: nat, actions: map<string, string>)
    requires ForeignKeys(l) && a < |l.attempts|
    ensures RetriedFrom(l, m, a) ==> RetriedFrom(l, m.(recoveryActions := actions), a)
  {
    hide Unresolved, HasStop;
  }

  // A first recovery is accepted exactly with authority, on what is recoverable and evidence that proves the stop; a retry only of an
  // uncertain request whose contract still may run. Closing ends the request failed or cancelled, as asked, with the one result of its
  // attempt; a retry sends it back to wait with a fresh authorization. The key is recorded: a replay changes nothing.
  lemma RecoveryDecides(l: Ledger, a: nat, key: string, action: string, expectedVersion: nat, e: RecoveryEvidence, mode: RecoveryMode,
                        authorized: bool, retryAllowed: bool)
    requires Inv(l) && a < |l.attempts|
    ensures ForeignKeys(l)
    ensures var t := Recover(l, a, key, action, expectedVersion, e, mode, authorized, retryAllowed);
            && (t.answer == Done <==>
                  authorized && if key in l.recoveryActions then l.recoveryActions[key] == action
                                else Recoverable(l, a, expectedVersion) && ProvesStop(l, a, e) && (mode == RetrySameContract ==> l.state == Uncertain && retryAllowed))
            && (t.answer != Done ==> t.answer.Refused?)
            && (t.answer != Done || key in l.recoveryActions ==> t.rows == l)
            && (t.answer == Done && key !in l.recoveryActions ==>
                  && t.rows.recoveryActions == l.recoveryActions[key := action] && StopAccepted(a, KindOf(e), DigestOf(e)) in t.rows.stops
                  && Recovered(l, t.rows, a, mode))
  {
    hide Inv, AcceptRecoveryStop, EndRecovery, ProvesStop, Unresolved, Recovered, KindOf, DigestOf;
    Keys(l);
    if Live(l.state) {
      NewestIsCurrent(l, a);
      OpenRequest(l);
    }
    EvidenceDecides(l, a, e);
    if Recoverable(l, a, expectedVersion) && ProvesStop(l, a, e) {
      RecoveryEnds(l, a, e, mode, retryAllowed);
      var done := EndRecovery(AcceptRecoveryStop(l, a, e).rows, a, mode, retryAllowed);
      if !done.answer.Refused? { KeyRecorded(l, done.rows, a, mode, done.rows.recoveryActions[key := action]); }
    }
  }

  /* ---- before an attempt ---- */

  // The newest candidate of a request that is reserved, and what else a request without a live attempt has.
  lemma Unclaimed(l: Ledger)
    requires Inv(l) && l.state in {Waiting, Reserved}
    ensures ForeignKeys(l) && l.generation == |l.candidates| && l.results == [] && l.resultId == None && l.version == |l.outbox|
    ensures l.state == Waiting ==> OpenCandidate(l) == None
    ensures l.state == Reserved ==> |l.candidates| > 0 && OpenCandidate(l) == Some(|l.candidates| - 1)
                                    && l.candidates[|l.candidates| - 1].status == Reserved && !l.candidates[|l.candidates| - 1].claimed
    ensures l.firstClaimed ==> RetryAuthority(l) && l.retryAuthorization == Some(|l.consumed|)
    ensures !l.firstClaimed ==> l.retryAuthorization == None && l.attempts == []
  {
    hide Scopes, Stops, Sending, PendingResults, Publications, History, RetryAuthority;
    if l.firstClaimed { WaitingIsAuthorized(l); }
  }

  // Sources become ready once, before the first claim, and only while authorization and repository hold; nothing else changes.
  lemma PreparationDecides(l: Ledger, valid: bool)
    requires Inv(l)
    ensures var t := Prepare(l, valid);
            && (t.answer == Done <==> l.state in {Waiting, Reserved} && l.attempts == [] && !l.sourcesReady && valid)
            && t.rows == l.(sourcesReady := l.sourcesReady || t.answer == Done)
            && (t.answer.Refused? <==> l.state in {Waiting, Reserved} && l.attempts == [] && !l.sourcesReady && !valid)
  {
    hide Scopes, Outbox, Sending, PendingResults, Stops, Retries, Publications, Results, Capacity, LockStep, History;
    assert l.(sourcesReady := l.sourcesReady) == l;
  }

  // A waiting request with its sources gets the free slot of an eligible executor, for one lease.
  lemma ReservationDecides(l: Ledger, route: Route, incarnation: nat, slot: nat, slotFree: bool, eligible: bool, now: int)
    requires Inv(l)
    ensures ForeignKeys(l)
    ensures var t := Reserve(l, route, incarnation, slot, slotFree, eligible, now);
            && (t.answer == Done <==> l.state == Waiting && l.sourcesReady && slotFree && eligible)
            && (t.answer != Done ==> t == Tx(l, Skipped))
            && (t.answer == Done ==>
                  && t.rows == l.(state := Reserved, version := l.version + 1, generation := l.generation + 1,
                                  candidates := l.candidates + [Candidate(route, if route == Host then Some(incarnation) else None, slot, Reserved, false, now + LEASE_MS)],
                                  reservations := l.reservations + [Reservation(slot, false)], outbox := l.outbox + [Snapshot(l.version + 1, Reserved, None)]))
  {
    hide Inv, RetryAuthority;
    Keys(l);
    if l.state == Waiting { Unclaimed(l); }
  }

  // A candidate that nobody ever claimed is retired exactly from its deadline on; its slot is free again.
  lemma RetirementDecides(l: Ledger, jobIdle: bool, now: int)
    requires Inv(l)
    ensures ForeignKeys(l)
    ensures var t, k := Retire(l, jobIdle, now), |l.candidates| - 1;
            && (t.answer == Done <==> l.state == Reserved && !l.firstClaimed && jobIdle && k >= 0 && now >= l.candidates[k].deadline)
            && (t.answer != Done ==> t == Tx(l, Skipped))
            && (t.answer == Done ==>
                  t.rows == l.(state := Waiting, version := l.version + 1, candidates := l.candidates[k := l.candidates[k].(status := Retired)],
                               reservations := l.reservations[k := l.reservations[k].(released := true)], outbox := l.outbox + [Snapshot(l.version + 1, Waiting, None)]))
  {
    hide Inv, RetryAuthority, OpenCandidate;
    Keys(l);
    if l.state == Reserved { Unclaimed(l); }
  }

  // Nobody's result ends a request without a live attempt, and frees what it holds.
  predicate EndedUnclaimed(l: Ledger, m: Ledger, report: Report) {
    && m.state == report.outcome && m.results == [Result(None, report)] && m.resultId == Some(0) && m.attempts == l.attempts
    && m.version == l.version + 1 && m.outbox == l.outbox + [Snapshot(l.version + 1, report.outcome, Some(report))]
    && (forall j :: 0 <= j < |m.reservations| ==> m.reservations[j].released)
  }

  lemma UnclaimedIsEnded(l: Ledger, report: Report)
    requires Inv(l) && ForeignKeys(l) && l.state in {Waiting, Reserved} && report.outcome in {Failed, Cancelled} && l.results == []
    ensures RetireOpen(l).results == l.results && RetireOpen(l).resultId == l.resultId
    ensures var m := Transition(RetireOpen(l).(results := [Result(None, report)]), report.outcome, Some(0)); EndedUnclaimed(l, m, report) && m.cancelActions == l.cancelActions
  {
    hide Inv, RetireOpen, RetryAuthority;
    RetireOpenParts(l, report.outcome);
    RetireUnstarted(l, Result(None, report));
    assert l.results + [Result(None, report)] == [Result(None, report)];
    AllReleased(Transition(RetireOpen(l).(results := [Result(None, report)]), report.outcome, Some(0)));
    Unclaimed(l);
  }

  // A request that cannot start fails at once if it waits, and once its job is idle if it is reserved.
  lemma RejectionDecides(l: Ledger, reason: string, jobIdle: bool)
    requires Inv(l)
    ensures ForeignKeys(l)
    ensures var t := RejectUnstarted(l, reason, jobIdle);
            && (t.answer == Done <==> l.state == Waiting || (l.state == Reserved && jobIdle))
            && (t.answer != Done ==> t == Tx(l, Skipped))
            && (t.answer == Done ==> t.rows.state == Failed && EndedUnclaimed(l, t.rows, CouldNotStart(reason)))
  {
    hide Inv, RetryAuthority, OpenCandidate, RetireOpen, EndedUnclaimed, Transition;
    Keys(l);
    if l.state in {Waiting, Reserved} {
      Unclaimed(l);
      UnclaimedIsEnded(l, CouldNotStart(reason));
      UnclaimedOutcome(l, Transition(RetireOpen(l).(results := [Result(None, CouldNotStart(reason))]), Failed, Some(0)), CouldNotStart(reason));
      assert l.results + [Result(None, CouldNotStart(reason))] == [Result(None, CouldNotStart(reason))];
    }
  }

  lemma UnclaimedOutcome(l: Ledger, m: Ledger, report: Report)
    requires EndedUnclaimed(l, m, report)
    ensures m.state == report.outcome
  {}

  // A claim takes the reserved candidate, moving it to the claiming incarnation's slot if that is free and the candidate is not a
  // host's; it opens one attempt and spends the retry authorization, if there is one.
  lemma ClaimDecides(l: Ledger, incarnation: nat, i: Incarnation, claimKey: string, free: bool, authorized: bool, eligible: bool, now: int)
    requires Inv(l)
    ensures ForeignKeys(l)
    ensures var t, k := Claim(l, incarnation, i, claimKey, free, authorized, eligible, now), |l.candidates| - 1;
            && (t.answer == Done <==>
                  && l.state == Reserved && k >= 0 && !i.signedOff && authorized && eligible
                  && (l.candidates[k].slot == i.slot || (free && l.candidates[k].route != Host))
                  && (l.candidates[k].route == Host ==> l.candidates[k].incarnation == Some(incarnation)))
            && (t.answer != Done ==> t.rows == l)
            && (t.answer == Done ==>
                  t.rows == l.(state := Claimed, version := l.version + 1, firstClaimed := true, retryAuthorization := None,
                               attempts := l.attempts + [Attempt(k, incarnation, claimKey, Claimed, None, None, now, false, false)],
                               candidates := l.candidates[k := l.candidates[k].(slot := i.slot, incarnation := Some(incarnation), status := Claimed, claimed := true)],
                               reservations := l.reservations[k := Reservation(i.slot, false)],
                               consumed := if l.firstClaimed then l.consumed + [RetryConsumed(|l.consumed|, |l.attempts|)] else l.consumed,
                               outbox := l.outbox + [Snapshot(l.version + 1, Claimed, None)]))
  {
    hide Inv, RetryAuthority, OpenCandidate;
    Keys(l);
    if l.state == Reserved {
      Unclaimed(l);
      OpenIsHeld(l);
    }
  }

  lemma OpenIsHeld(l: Ledger)
    requires Inv(l) && l.state == Reserved
    ensures |l.reservations| == |l.candidates| > 0 && !l.reservations[|l.candidates| - 1].released
  {
    hide Scopes, Stops, Sending, PendingResults, Publications, History, Retries, Results, Outbox;
  }

  /* ---- cancellation ---- */

  // What a cancel leaves: nothing new of a request that has ended; a cancelled request, if no attempt lives or the live one has stopped
  // with no publication open; and otherwise one whose attempt has lost its rights and is to stop.
  predicate CancelledTo(l: Ledger, m: Ledger)
    requires ForeignKeys(l)
  {
    var a := |l.attempts| - 1;
    if Terminal(l.state) then m == l.(cancelActions := m.cancelActions)
    else if l.state in {Waiting, Reserved} then m.state == Cancelled && EndedUnclaimed(l, m, CancelledByRequester)
    else
      && a >= 0
      && if l.attempts[a].stopped && !Unresolved(l.publications) then
           && m.state == Cancelled && m.results == [Result(Some(a), CancelledByRequester)]
           && |m.attempts| == |l.attempts| && m.attempts[a].status == Cancelled && forall j :: 0 <= j < |m.reservations| ==> m.reservations[j].released
         else if l.state == CancelRequested then m == l.(cancelActions := m.cancelActions)
         else MovedTo(l, m.(cancelActions := l.cancelActions), a, l.attempts[a].(status := CancelRequested, revoked := true))
  }

  lemma EndedCancels(l: Ledger)
    requires ForeignKeys(l) && Terminal(l.state)
    ensures CancelledTo(l, l)
  {}

  lemma CancelKey(l: Ledger, m: Ledger, actions: map<string, nat>)
    requires ForeignKeys(l) && CancelledTo(l, m) && m.cancelActions == l.cancelActions
    ensures CancelledTo(l, m.(cancelActions := actions))
  {
    hide Unresolved;
  }

  lemma OpenCancels(l: Ledger)
    requires Inv(l) && ForeignKeys(l) && !Terminal(l.state)
    ensures var t := CancelOpen(l); !t.answer.Refused? && t.rows.cancelActions == l.cancelActions && CancelledTo(l, t.rows)
  {
    hide Inv, RetryAuthority, Unresolved, RetireOpen, EndedUnclaimed, Transition, CancelForStop, FinishResult, MovedTo;
    OpenStates(l);
    if l.state in {Waiting, Reserved} {
      Unclaimed(l);
      UnclaimedHasNoAttempt(l);
      UnclaimedIsEnded(l, CancelledByRequester);
      UnclaimedOutcome(l, Transition(RetireOpen(l).(results := [Result(None, CancelledByRequester)]), Cancelled, Some(0)), CancelledByRequester);
    } else {
      LiveCancels(l);
    }
  }

  lemma LiveCancels(l: Ledger)
    requires Inv(l) && ForeignKeys(l) && Live(l.state)
    ensures var t := CancelOpen(l); !t.answer.Refused? && t.rows.cancelActions == l.cancelActions && CancelledTo(l, t.rows)
  {
    hide Inv, Unresolved, CancelForStop, FinishResult, MovedTo;
    var a := |l.attempts| - 1;
    CurrentRow(l);
    OpenRequest(l);
    LiveCandidateOpen(l);
    LastAttempt(l.attempts, l.generation - 1);
    CancelForStopInv(l, a);
    Revokes(l, a);
    var m := if l.state == CancelRequested then l else CancelForStop(l, a);
    Keys(m);
    if l.attempts[a].stopped && !Unresolved(l.publications) {
      Finishes(m, a, CancelledByRequester, CancelledByRequester);
    }
  }

  lemma Revokes(l: Ledger, a: nat)
    requires ForeignKeys(l) && a < |l.attempts| && l.resultId == None && l.version == |l.outbox|
    ensures var m, row := CancelForStop(l, a), l.attempts[a].(status := CancelRequested, revoked := true);
            && MovedTo(l, m, a, row) && m.state == CancelRequested && m.attempts == l.attempts[a := row]
            && m.publications == l.publications && m.cancelActions == l.cancelActions && m.(cancelActions := l.cancelActions) == m
  {
    Moves(l, a, l.attempts[a].(status := CancelRequested, revoked := true));
  }

  // With authority and the current version a cancel always goes through: a request without a live attempt is cancelled, as is one
  // whose attempt has stopped and has no publication open; any other is asked to stop. A replay of the key changes nothing.
  lemma CancellationDecides(l: Ledger, key: string, expectedVersion: nat, authorized: bool)
    requires Inv(l)
    ensures ForeignKeys(l)
    ensures var t, a := Cancel(l, key, expectedVersion, authorized), |l.attempts| - 1;
            && (t.answer == Done <==> authorized && if key in l.cancelActions then l.cancelActions[key] == expectedVersion else l.version == expectedVersion)
            && (t.answer != Done ==> t.answer.Refused?)
            && (t.answer != Done || key in l.cancelActions ==> t.rows == l)
            && (t.answer == Done && key !in l.cancelActions ==>
                  && t.rows.cancelActions == l.cancelActions[key := expectedVersion]
                  && CancelledTo(l, t.rows))
  {
    hide Inv, CancelOpen, CancelledTo;
    Keys(l);
    if Terminal(l.state) { EndedCancels(l); } else { OpenCancels(l); }
    if key !in l.cancelActions {
      if Terminal(l.state) { CancelKey(l, l, l.cancelActions[key := expectedVersion]); }
      else { CancelKey(l, CancelOpen(l).rows, CancelOpen(l).rows.cancelActions[key := expectedVersion]); }
    }
  }
}
