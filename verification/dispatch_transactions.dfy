// The transactions as the service runs them: each changes the rows of one locked request step by step.
//
// A transaction works on its own view of the rows; when it refuses, the view is dropped and
// nothing was written. Every method is proved to leave exactly what its rule in DispatchRules says.
module DispatchTransactions {
  import opened Options
  import opened DispatchRows
  import opened DispatchRules

  // An expired lease changes a status, not the shape of the rows.
  lemma ExpiredKeys(l: Ledger, a: nat)
    requires ForeignKeys(l) && a < |l.attempts|
    ensures ForeignKeys(LeaseExpired(l, a)) && |LeaseExpired(l, a).attempts| == |l.attempts|
  {}

  class Rows {
    var state: Status
    var version: nat
    var generation: nat
    var sourcesReady: bool
    var firstClaimed: bool
    var retryAuthorization: Option<nat>
    var resultId: Option<nat>
    var candidates: seq<Candidate>
    var reservations: seq<Reservation>
    var attempts: seq<Attempt>
    var publications: seq<Publication>
    var results: seq<Result>
    var outbox: seq<Snapshot>
    var startedScopes: seq<StartedScope>
    var stops: seq<StopAccepted>
    var authorizations: seq<RetryAuthorized>
    var consumed: seq<RetryConsumed>
    var accepted: seq<ResultAccepted>
    var late: seq<LateResult>
    var cancelActions: map<string, nat>
    var recoveryActions: map<string, string>
    var resolutions: map<string, Resolution>
    var permits: seq<StartPermit>
    var portCalls: seq<PortCall>
    var publisher: Option<Publisher>
    var pending: multiset<Submission>

    constructor (l: Ledger)
      ensures Value() == l
    {
      state, version, generation, sourcesReady, firstClaimed := l.state, l.version, l.generation, l.sourcesReady, l.firstClaimed;
      retryAuthorization, resultId, candidates, reservations, attempts := l.retryAuthorization, l.resultId, l.candidates, l.reservations, l.attempts;
      publications, results, outbox, startedScopes, stops := l.publications, l.results, l.outbox, l.startedScopes, l.stops;
      authorizations, consumed, accepted, late := l.authorizations, l.consumed, l.accepted, l.late;
      cancelActions, recoveryActions, resolutions := l.cancelActions, l.recoveryActions, l.resolutions;
      permits, portCalls, publisher, pending := l.permits, l.portCalls, l.publisher, l.pending;
    }

    function Value(): Ledger
      reads this
    {
      Ledger(state, version, generation, sourcesReady, firstClaimed, retryAuthorization, resultId, candidates, reservations, attempts,
             publications, results, outbox, startedScopes, stops, authorizations, consumed, accepted, late,
             cancelActions, recoveryActions, resolutions, permits, portCalls, publisher, pending)
    }

    /* ---- shared row updates ---- */

    method Enter(next: Status, result: Option<nat>)
      requires result.Some? ==> result.value < |results|
      requires resultId.Some? ==> resultId.value < |results|
      modifies this
      ensures Value() == Transition(old(Value()), next, result)
    {
      SetState(next, result);
      WriteOutbox();
    }

    method SetState(next: Status, result: Option<nat>)
      modifies this
      ensures Value() == old(Value()).(state := next, version := old(version) + 1, resultId := if result.Some? then result else old(resultId))
    {
      SetColumns(next, result);
    }

    method SetColumns(next: Status, result: Option<nat>)
      modifies this`state, this`version, this`resultId
      ensures state == next && version == old(version) + 1 && resultId == if result.Some? then result else old(resultId)
    {
      state, version := next, version + 1;
      resultId := if result.Some? then result else resultId;
    }

    // The complete projection of the request at its version.
    method WriteOutbox()
      requires resultId.Some? ==> resultId.value < |results|
      modifies this
      ensures Value() == old(Value()).(outbox := old(outbox)
                + [Snapshot(old(version), old(state), if old(resultId).Some? then Some(old(results)[old(resultId).value].report) else None)])
    {
      var reply := None;
      if resultId.Some? { reply := Some(results[resultId.value].report); }
      outbox := outbox + [Snapshot(version, state, reply)];
    }

    // Attempt, candidate and request take one status.
    method MoveAttempt(a: nat, row: Attempt)
      requires ForeignKeys(Value()) && a < |attempts|
      modifies this
      ensures Value() == MoveTogether(old(Value()), a, row)
    {
      var c := attempts[a].candidate;
      attempts := attempts[a := row];
      candidates := candidates[c := candidates[c].(status := row.status)];
      Enter(row.status, None);
    }

    method Release(c: nat, status: Status)
      requires c < |candidates| == |reservations|
      modifies this`candidates, this`reservations
      ensures Value() == CloseCandidate(old(Value()), c, status)
    {
      candidates := candidates[c := candidates[c].(status := status)];
      reservations := reservations[c := reservations[c].(released := true)];
    }

    method AddResult(attempt: Option<nat>, report: Report) returns (id: Option<nat>)
      modifies this
      ensures var inserted := InsertResult(old(Value()), attempt, report);
              && id.Some? == inserted.Some?
              && (id.Some? ==> Value() == inserted.value.0 && id.value == inserted.value.1)
    {
      if |results| > 0 {
        if results[0].report != report { return None; }
        return Some(0);
      }
      results := [Result(attempt, report)];
      return Some(0);
    }

    method EndAttempt(a: nat, outcome: Status) returns (ok: bool)
      requires ForeignKeys(Value()) && a < |attempts|
      modifies this
      ensures var ended := Terminalize(old(Value()), a, outcome); ok == ended.Some? && (ok ==> Value() == ended.value)
    {
      if !attempts[a].stopped || Unresolved(publications) { return false; }
      attempts := attempts[a := attempts[a].(status := outcome, revoked := true)];
      Release(attempts[a].candidate, Finished);
      return true;
    }

    method Finish(a: nat, report: Report, submitted: Report) returns (answer: Answer)
      requires ForeignKeys(Value()) && a < |attempts|
      modifies this
      ensures var t := FinishResult(old(Value()), a, report, submitted); answer == t.answer && (answer.Refused? || Value() == t.rows)
    {
      hide Unresolved;
      var id := AddResult(Some(a), report);
      if id.None? { return Refused(IdempotencyConflict); }
      Enter(report.outcome, id);
      var ended := EndAttempt(a, report.outcome);
      if !ended { return Refused(Conflict); }
      accepted := accepted + [ResultAccepted(a, id.value, submitted)];
      return Receipt(true, id.value, report);
    }

    method FinishCancellation(a: nat, receipt: Answer) returns (answer: Answer)
      requires ForeignKeys(Value()) && a < |attempts| && !receipt.Refused?
      modifies this
      ensures var t := FinishStoppedCancellation(old(Value()), a, receipt); answer == t.answer && (answer.Refused? || Value() == t.rows)
    {
      if state != CancelRequested || Unresolved(publications) { return receipt; }
      if |results| > 0 { return receipt; }
      answer := Finish(a, StoppedCancellation, StoppedCancellation);
      if !answer.Refused? { answer := receipt; }
    }

    /* ---- intake and selection ---- */

    method PrepareSources(valid: bool) returns (answer: Answer)
      modifies this
      ensures Tx(Value(), answer) == Prepare(old(Value()), valid)
    {
      if sourcesReady || firstClaimed || state !in {Waiting, Reserved} { return Skipped; }
      if !valid { return Refused(Forbidden); }
      sourcesReady := true;
      return Done;
    }

    method ReserveSlot(route: Route, incarnation: nat, slot: nat, slotFree: bool, eligible: bool, now: int) returns (answer: Answer)
      requires ForeignKeys(Value())
      modifies this
      ensures var t := Reserve(old(Value()), route, incarnation, slot, slotFree, eligible, now); answer == t.answer && (answer.Refused? || Value() == t.rows)
    {
      if state != Waiting || !sourcesReady { return Skipped; }
      hide RetryAuthority, Transition;
      if firstClaimed && !RetryAuthority(Value()) { return Refused(Conflict); }
      if !slotFree || !eligible { return Skipped; }
      Book(Candidate(route, if route == Host then Some(incarnation) else None, slot, Reserved, false, now + LEASE_MS));
      Enter(Reserved, None);
      return Done;
    }

    // A new generation's candidate and its reservation.
    method Book(c: Candidate)
      modifies this
      ensures Value() == old(Value()).(candidates := old(candidates) + [c], reservations := old(reservations) + [Reservation(c.slot, false)],
                                       generation := old(generation) + 1)
    {
      AddCandidate(c);
    }

    method AddCandidate(c: Candidate)
      modifies this`candidates, this`reservations, this`generation
      ensures candidates == old(candidates) + [c] && reservations == old(reservations) + [Reservation(c.slot, false)] && generation == old(generation) + 1
    {
      candidates := candidates + [c];
      reservations := reservations + [Reservation(c.slot, false)];
      generation := generation + 1;
    }

    method RetireCandidate()
      requires ForeignKeys(Value())
      modifies this`candidates, this`reservations
      ensures Value() == RetireOpen(old(Value()))
    {
      var open := OpenCandidate(Value());
      if open.Some? { Release(open.value, Retired); }
    }

    method RetireExpired(jobIdle: bool, now: int) returns (answer: Answer)
      requires ForeignKeys(Value())
      modifies this
      ensures Tx(Value(), answer) == Retire(old(Value()), jobIdle, now)
    {
      if state != Reserved || firstClaimed { return Skipped; }
      var open := OpenCandidate(Value());
      if open.None? { return Skipped; }
      var c := candidates[open.value];
      if c.status != Reserved || now < c.deadline || c.claimed { return Skipped; }
      if !jobIdle { return Skipped; }
      RetireCandidate();
      Enter(Waiting, None);
      return Done;
    }

    method RejectUnstartedRequest(reason: string, jobIdle: bool) returns (answer: Answer)
      requires ForeignKeys(Value())
      modifies this
      ensures var t := RejectUnstarted(old(Value()), reason, jobIdle); answer == t.answer && (answer.Refused? || Value() == t.rows)
    {
      if state !in {Waiting, Reserved} { return Skipped; }
      hide RetryAuthority, Transition, RetireOpen;
      if firstClaimed && !RetryAuthority(Value()) { return Refused(Conflict); }
      var open := OpenCandidate(Value());
      if open.Some? && (candidates[open.value].claimed || !jobIdle) { return Skipped; }
      RetireCandidate();
      FailUnstarted(reason);
      return Done;
    }

    method FailUnstarted(reason: string)
      requires resultId.Some? ==> resultId.value < |results|
      modifies this
      ensures var l := old(Value()).(results := old(results) + [Result(None, CouldNotStart(reason))]);
              Value() == Transition(l, Failed, Some(|l.results| - 1))
    {
      results := results + [Result(None, CouldNotStart(reason))];
      Enter(Failed, Some(|results| - 1));
    }

    /* ---- attempts ---- */

    method ClaimCandidate(incarnation: nat, i: Incarnation, claimKey: string, free: bool, authorized: bool, eligible: bool, now: int) returns (answer: Answer)
      requires ForeignKeys(Value())
      modifies this
      ensures var t := Claim(old(Value()), incarnation, i, claimKey, free, authorized, eligible, now); answer == t.answer && (answer.Refused? || Value() == t.rows)
    {
      if state != Reserved { return Skipped; }
      hide RetryAuthority, Transition;
      if firstClaimed && !RetryAuthority(Value()) { return Skipped; }
      var current := CurrentCandidate(Value());
      if current.None? { return Skipped; }
      var k := current.value;
      if candidates[k].status != Reserved || candidates[k].claimed { return Skipped; }
      if i.signedOff { return Refused(Forbidden); }
      if candidates[k].route == Host && (candidates[k].incarnation != Some(incarnation) || candidates[k].slot != i.slot) { return Skipped; }
      if !authorized { return Refused(Forbidden); }
      if !eligible || (candidates[k].slot != i.slot && !free) { return Skipped; }
      TakeAttempt(k, i.slot, Attempt(k, incarnation, claimKey, Claimed, None, None, now, false, false));
      Enter(Claimed, None);
      return Done;
    }

    // The candidate and its reservation become the claimer's, and the attempt row is written.
    method TakeAttempt(k: nat, slot: nat, row: Attempt)
      requires k < |candidates| == |reservations|
      modifies this
      ensures Value() == old(Value()).(
                           reservations := old(reservations)[k := old(reservations)[k].(slot := slot)],
                           candidates := old(candidates)[k := old(candidates)[k].(slot := slot, incarnation := Some(row.incarnation), status := Claimed, claimed := true)],
                           attempts := old(attempts) + [row],
                           firstClaimed := true,
                           consumed := if old(retryAuthorization).Some? then old(consumed) + [RetryConsumed(old(retryAuthorization).value, |old(attempts)|)] else old(consumed),
                           retryAuthorization := None)
    {
      TakeCandidate(k, row.incarnation, slot);
      RecordAttempt(row);
    }

    // The candidate becomes the claimer's; its reservation follows it to the claimer's slot.
    method TakeCandidate(k: nat, incarnation: nat, slot: nat)
      requires k < |candidates| == |reservations|
      modifies this`reservations, this`candidates, this`firstClaimed
      ensures firstClaimed && reservations == old(reservations)[k := old(reservations)[k].(slot := slot)]
      ensures candidates == old(candidates)[k := old(candidates)[k].(slot := slot, incarnation := Some(incarnation), status := Claimed, claimed := true)]
    {
      reservations := reservations[k := reservations[k].(slot := slot)];
      firstClaimed := true;
      candidates := candidates[k := candidates[k].(slot := slot, incarnation := Some(incarnation), status := Claimed, claimed := true)];
    }

    // The attempt row; a retry authorization is consumed by it.
    method RecordAttempt(row: Attempt)
      modifies this`attempts, this`consumed, this`retryAuthorization
      ensures attempts == old(attempts) + [row] && retryAuthorization == None
      ensures consumed == if old(retryAuthorization).Some? then old(consumed) + [RetryConsumed(old(retryAuthorization).value, |old(attempts)|)] else old(consumed)
    {
      attempts := attempts + [row];
      if retryAuthorization.Some? {
        consumed := consumed + [RetryConsumed(retryAuthorization.value, |attempts| - 1)];
        retryAuthorization := None;
      }
    }

    method StartAttempt(a: nat, i: Incarnation, scope: Scope, authorized: bool, now: int, maxDuration: int) returns (answer: Answer)
      requires ForeignKeys(Value())
      modifies this
      ensures var t := Start(old(Value()), a, i, scope, authorized, now, maxDuration); answer == t.answer && (answer.Refused? || Value() == t.rows)
    {
      if a >= |attempts| || !ScopeOfIncarnation(scope, i) { return Refused(Forbidden); }
      var row := attempts[a];
      if row.scopeId.Some? && row.scopeId.value != scope.scopeId { return Refused(Conflict); }
      hide Active, MoveTogether, RecordedScope;
      if !Active(Value(), a, i) || state !in {Claimed, Running} || row.status !in {Claimed, Running} { return Refused(Conflict); }
      if now - row.heartbeatAt >= LEASE_MS { return Refused(Conflict); }
      if !authorized { return Refused(Forbidden); }
      if row.startedAt.Some? && now - row.startedAt.value >= maxDuration { return Refused(Conflict); }
      if row.status == Running {
        if !RecordedScope(startedScopes, a, scope) { return Refused(Conflict); }
      } else {
        BeginScope(a, scope, now);
      }
      var permit := StartPermit(a, row.incarnation, scope);
      permits := permits + [permit];
      return Permit(permit);
    }

    method BeginScope(a: nat, scope: Scope, now: int)
      requires ForeignKeys(Value()) && a < |attempts|
      modifies this
      ensures Value() == MoveTogether(old(Value()).(startedScopes := old(startedScopes) + [StartedScope(a, scope)]), a,
                                      old(attempts)[a].(status := Running, scopeId := Some(scope.scopeId), startedAt := Some(now), heartbeatAt := now))
    {
      startedScopes := startedScopes + [StartedScope(a, scope)];
      MoveAttempt(a, attempts[a].(status := Running, scopeId := Some(scope.scopeId), startedAt := Some(now), heartbeatAt := now));
    }

    method ExpireLease(a: nat)
      requires ForeignKeys(Value()) && a < |attempts|
      modifies this
      ensures Value() == LeaseExpired(old(Value()), a)
    {
      MoveAttempt(a, attempts[a].(status := Uncertain));
    }

    method RequireStop(a: nat)
      requires ForeignKeys(Value()) && a < |attempts|
      modifies this
      ensures Value() == CancelForStop(old(Value()), a)
    {
      MoveAttempt(a, attempts[a].(status := CancelRequested, revoked := true));
    }

    method RenewAttempt(a: nat, i: Incarnation, scopeId: Option<string>, authorized: bool, now: int, maxDuration: int) returns (answer: Answer)
      requires ForeignKeys(Value())
      modifies this
      ensures Tx(Value(), answer) == Renew(old(Value()), a, i, scopeId, authorized, now, maxDuration)
    {
      hide Active, LeaseExpired, CancelForStop;
      if a >= |attempts| { return Refused(Forbidden); }
      if !Active(Value(), a, i) || !Executing(state) || !Executing(attempts[a].status) { return Lease(true); }
      if attempts[a].scopeId != scopeId { return Refused(Forbidden); }
      var started := attempts[a].startedAt;
      if attempts[a].status != Uncertain && now - attempts[a].heartbeatAt >= LEASE_MS {
        ExpiredKeys(Value(), a);
        ExpireLease(a);
      }
      if !authorized {
        RequireStop(a);
        return Lease(true);
      }
      if started.Some? && now - started.value >= maxDuration {
        RequireStop(a);
        return Lease(true);
      }
      attempts := attempts[a := attempts[a].(heartbeatAt := now)];
      return Lease(attempts[a].status == Uncertain);
    }

    method ResumeAttempt(a: nat, i: Incarnation, scope: Scope, authorized: bool, now: int, maxDuration: int) returns (answer: Answer)
      requires ForeignKeys(Value())
      modifies this
      ensures Tx(Value(), answer) == Resume(old(Value()), a, i, scope, authorized, now, maxDuration)
    {
      if a >= |attempts| || !ScopeOfIncarnation(scope, i) { return Refused(Forbidden); }
      var row := attempts[a];
      if row.scopeId.Some? && row.scopeId.value != scope.scopeId { return Refused(Conflict); }
      if !Active(Value(), a, i) || state != Uncertain || row.status != Uncertain || row.startedAt.None? || row.scopeId.None? { return Refused(Conflict); }
      if !authorized { return Refused(Forbidden); }
      if now - row.startedAt.value >= maxDuration || !RecordedScope(startedScopes, a, scope) { return Refused(Conflict); }
      MoveAttempt(a, row.(status := Running, heartbeatAt := now));
      return Done;
    }

    method ExpireAttempt(a: nat, now: int, maxDuration: int) returns (answer: Answer)
      requires ForeignKeys(Value())
      modifies this
      ensures Tx(Value(), answer) == Expire(old(Value()), a, now, maxDuration)
    {
      if a >= |attempts| { return Refused(Forbidden); }
      var row := attempts[a];
      if !Current(Value(), a) || !Executing(state) || !Executing(row.status) { return Skipped; }
      if row.stopped && HasStop(stops, a) { return Skipped; }
      if row.startedAt.Some? && now - row.startedAt.value >= maxDuration {
        RequireStop(a);
        return Skipped;
      }
      if row.status == Uncertain || now - row.heartbeatAt < LEASE_MS { return Skipped; }
      ExpireLease(a);
      return Done;
    }

    /* ---- stops ---- */

    method RecordStopEvent(a: nat, kind: StopKind, digest: string)
      requires a < |attempts|
      modifies this
      ensures Value() == AcceptStop(old(Value()), a, kind, digest)
    {
      stops := stops + [StopAccepted(a, kind, digest)];
      attempts := attempts[a := attempts[a].(stopped := true, revoked := true)];
    }

    method AcceptEvidence(a: nat, kind: StopKind, digest: string) returns (answer: Answer)
      requires ForeignKeys(Value()) && a < |attempts|
      modifies this
      ensures var t := RecordStop(old(Value()), a, kind, digest); answer == t.answer && (answer.Refused? || Value() == t.rows)
    {
      var earlier := FindStop(stops, a);
      if earlier.Some? {
        if stops[earlier.value] != StopAccepted(a, kind, digest) { return Refused(Conflict); }
        return StopReceipt(earlier.value);
      }
      RecordStopEvent(a, kind, digest);
      return StopReceipt(|stops| - 1);
    }

    method AcceptObservation(a: nat, o: Observation) returns (answer: Answer)
      requires ForeignKeys(Value()) && a < |attempts|
      modifies this
      ensures var t := AcceptScopedStop(old(Value()), a, o); answer == t.answer && (answer.Refused? || Value() == t.rows)
    {
      var row := attempts[a];
      if !o.authentic || !o.timely { return Refused(Conflict); }
      if row.scopeId.None? {
        if row.startedAt.Some? || HasStarted(startedScopes, a) || !candidates[row.candidate].claimed || !o.created || Unresolved(publications) { return Refused(Conflict); }
      } else if row.startedAt.None? || row.scopeId.value != o.scope.scopeId || !RecordedScope(startedScopes, a, o.scope) {
        return Refused(Conflict);
      }
      answer := AcceptEvidence(a, ContainerStopped, o.digest);
    }

    method StopAttempt(a: nat, authorized: bool, o: Observation) returns (answer: Answer)
      requires ForeignKeys(Value())
      modifies this
      ensures var t := SubmitStop(old(Value()), a, authorized, o); answer == t.answer && (answer.Refused? || Value() == t.rows)
    {
      if a >= |attempts| || !authorized { return Refused(Forbidden); }
      answer := AcceptObservation(a, o);
      if answer.Refused? { return; }
      answer := FinishCancellation(a, answer);
    }

    // The stop of an attempt without a scope, and the end of its request.
    method CloseUnstartedAttempt(a: nat, kind: StopKind, digest: string, failure: Report, receipt: Answer) returns (answer: Answer)
      requires ForeignKeys(Value()) && a < |attempts| && !receipt.Refused?
      modifies this
      ensures var t := CloseUnstarted(old(Value()), a, kind, digest, failure, receipt); answer == t.answer && (answer.Refused? || Value() == t.rows)
    {
      hide FinishResult, FinishStoppedCancellation;
      RecordStopEvent(a, kind, digest);
      if state == CancelRequested {
        answer := FinishCancellation(a, receipt);
      } else {
        answer := Finish(a, failure, failure);
      }
      if !answer.Refused? { answer := receipt; }
    }

    method StopUnstarted(a: nat, authorized: bool, reason: string, digest: string, scopedEvidence: bool, timely: bool) returns (answer: Answer)
      requires ForeignKeys(Value())
      modifies this
      ensures var t := SubmitClaimBoundStop(old(Value()), a, authorized, reason, digest, scopedEvidence, timely);
              answer == t.answer && (answer.Refused? || Value() == t.rows)
    {
      if a >= |attempts| || !authorized { return Refused(Forbidden); }
      var earlier := FindStop(stops, a);
      if earlier.Some? {
        if stops[earlier.value] != StopAccepted(a, ClaimBound, digest) { return Refused(Conflict); }
        return StopReceipt(earlier.value);
      }
      if !UnstartedSignature(Value(), a) || scopedEvidence || !timely { return Refused(Conflict); }
      answer := CloseUnstartedAttempt(a, ClaimBound, digest, ClaimBoundFailure(reason), StopReceipt(|stops|));
    }

    method CloseSignedOff(a: nat, i: Incarnation) returns (answer: Answer)
      requires ForeignKeys(Value())
      modifies this
      ensures var t := CloseOrphan(old(Value()), a, i); answer == t.answer && (answer.Refused? || Value() == t.rows)
    {
      if a >= |attempts| { return Refused(Forbidden); }
      if !i.signedOff || !UnstartedSignature(Value(), a) || HasStop(stops, a) { return Skipped; }
      answer := CloseUnstartedAttempt(a, SignedOffUnstarted, "", SignedOffBeforeStart, Done);
    }

    /* ---- cancellation and recovery ---- */

    method CancelRequest(key: string, expectedVersion: nat, authorized: bool) returns (answer: Answer)
      requires ForeignKeys(Value())
      modifies this
      ensures var t := Cancel(old(Value()), key, expectedVersion, authorized); answer == t.answer && (answer.Refused? || Value() == t.rows)
    {
      hide CancelOpen;
      if !authorized { return Refused(Forbidden); }
      if key in cancelActions {
        if cancelActions[key] != expectedVersion { return Refused(IdempotencyConflict); }
        return Done;
      }
      if version != expectedVersion { return Refused(Conflict); }
      if !Terminal(state) {
        answer := CancelOpenRequest();
        if answer.Refused? { return; }
      }
      cancelActions := cancelActions[key := expectedVersion];
      return Done;
    }

    method CancelOpenRequest() returns (answer: Answer)
      requires ForeignKeys(Value())
      modifies this
      ensures var t := CancelOpen(old(Value())); answer == t.answer && (answer.Refused? || Value() == t.rows)
    {
      hide RetryAuthority, CancelUnclaimed, FinishResult, Unresolved, CancelForStop;
      var c := OpenCandidate(Value());
      var a := if c.Some? then AttemptOf(attempts, c.value) else None;
      if a.Some? {
        answer := CancelAttempt(a.value);
      } else {
        if firstClaimed && !RetryAuthority(Value()) { return Refused(Conflict); }
        if c.Some? && candidates[c.value].claimed { return Refused(Conflict); }
        answer := CancelUnclaimedRequest();
      }
    }

    // Rights end at once; capacity is released only if the attempt has already stopped.
    method CancelAttempt(a: nat) returns (answer: Answer)
      requires ForeignKeys(Value()) && a < |attempts|
      modifies this
      ensures var m := if old(state) == CancelRequested then old(Value()) else CancelForStop(old(Value()), a);
              && ForeignKeys(m) && a < |m.attempts|
              && if m.attempts[a].stopped && !Unresolved(m.publications) then
                var t := FinishResult(m, a, CancelledByRequester, CancelledByRequester); answer == t.answer && (answer.Refused? || Value() == t.rows)
              else answer == Done && Value() == m
    {
      hide FinishResult, Unresolved;
      if state != CancelRequested { RequireStop(a); }
      if !attempts[a].stopped || Unresolved(publications) { return Done; }
      answer := Finish(a, CancelledByRequester, CancelledByRequester);
    }

    method CancelUnclaimedRequest() returns (answer: Answer)
      requires ForeignKeys(Value())
      modifies this
      ensures var t := CancelUnclaimed(old(Value())); answer == t.answer && (answer.Refused? || Value() == t.rows)
    {
      hide Transition, RetireOpen;
      RetireCandidate();
      var id := AddResult(None, CancelledByRequester);
      if id.None? { return Refused(IdempotencyConflict); }
      Enter(Cancelled, id);
      return Done;
    }

    method AcceptRecoveryEvidence(a: nat, e: RecoveryEvidence) returns (answer: Answer)
      requires ForeignKeys(Value()) && a < |attempts|
      modifies this
      ensures var t := AcceptRecoveryStop(old(Value()), a, e); answer == t.answer && (answer.Refused? || Value() == t.rows)
    {
      match e
      case FromRuntime(o) =>
        answer := AcceptObservation(a, o);
      case Attested(rebooted, digest, valid) =>
        if !valid || (attempts[a].scopeId.None? && (attempts[a].startedAt.Some? || HasStarted(startedScopes, a))) { return Refused(Conflict); }
        answer := AcceptEvidence(a, AttestedKind(rebooted), digest);
    }

    method RecoverRequest(a: nat, key: string, action: string, expectedVersion: nat, e: RecoveryEvidence, mode: RecoveryMode,
                          authorized: bool, retryAllowed: bool) returns (answer: Answer)
      requires ForeignKeys(Value())
      modifies this
      ensures var t := Recover(old(Value()), a, key, action, expectedVersion, e, mode, authorized, retryAllowed);
              answer == t.answer && (answer.Refused? || Value() == t.rows)
    {
      hide AcceptRecoveryStop, EndRecovery, Unresolved;
      if a >= |attempts| || !authorized { return Refused(Forbidden); }
      if key in recoveryActions {
        if recoveryActions[key] != action { return Refused(IdempotencyConflict); }
        return Done;
      }
      if version != expectedVersion || !Current(Value(), a) || resultId.Some? || state !in {Uncertain, CancelRequested} || Unresolved(publications) {
        return Refused(Conflict);
      }
      answer := AcceptRecoveryEvidence(a, e);
      if answer.Refused? { return; }
      answer := EndRecoveryOf(a, mode, retryAllowed);
      if answer.Refused? { return; }
      recoveryActions := recoveryActions[key := action];
      return Done;
    }

    method EndRecoveryOf(a: nat, mode: RecoveryMode, retryAllowed: bool) returns (answer: Answer)
      requires ForeignKeys(Value()) && a < |attempts|
      modifies this
      ensures var t := EndRecovery(old(Value()), a, mode, retryAllowed); answer == t.answer && (answer.Refused? || Value() == t.rows)
    {
      hide FinishResult, AuthorizeRetry;
      if mode != RetrySameContract {
        answer := Finish(a, RecoveryReport(mode), RecoveryReport(mode));
      } else {
        answer := RetryContract(a, retryAllowed);
      }
    }

    method RetryContract(a: nat, retryAllowed: bool) returns (answer: Answer)
      requires ForeignKeys(Value()) && a < |attempts|
      modifies this
      ensures var t := AuthorizeRetry(old(Value()), a, retryAllowed); answer == t.answer && (answer.Refused? || Value() == t.rows)
    {
      hide Unresolved;
      if state != Uncertain { return Refused(Conflict); }
      if !retryAllowed { return Refused(Forbidden); }
      var ended := EndAttempt(a, Failed);
      if !ended { return Refused(Conflict); }
      RecordAuthorization(RetryAuthorized(a, generation));
      Enter(Waiting, None);
      return Done;
    }

    method RecordAuthorization(e: RetryAuthorized)
      modifies this
      ensures Value() == old(Value()).(authorizations := old(authorizations) + [e], retryAuthorization := Some(|old(authorizations)|))
    {
      authorizations := authorizations + [e];
      retryAuthorization := Some(|authorizations| - 1);
    }

    /* ---- results ---- */

    method AnswerDecided(a: nat, submitted: Report) returns (answer: Answer)
      requires |results| > 0
      modifies this
      ensures Tx(Value(), answer) == AlreadyDecided(old(Value()), a, submitted)
    {
      if exists i :: 0 <= i < |accepted| && accepted[i].attempt == a && accepted[i].submitted == submitted {
        return Receipt(true, 0, results[0].report);
      }
      late := late + [LateResult(a, submitted)];
      return Receipt(false, 0, results[0].report);
    }

    method BeginCompletion(a: nat, submitted: Report, authorized: bool, intact: bool, failure: Option<string>) returns (answer: Answer)
      requires ForeignKeys(Value())
      modifies this
      ensures Tx(Value(), answer) == BeginResult(old(Value()), a, submitted, authorized, intact, failure)
    {
      if a >= |attempts| || !authorized { return Refused(Forbidden); }
      if !Terminal(submitted.outcome) { return Refused(InvalidInput); }
      if |results| > 0 {
        answer := AnswerDecided(a, submitted);
        return;
      }
      if !Current(Value(), a) || !attempts[a].stopped || !HasStop(stops, a) || !intact { return Refused(Conflict); }
      if attempts[a].scopeId.None? && submitted.outcome == Succeeded { return Refused(Conflict); }
      if state == Uncertain { return Refused(Conflict); }
      var report := submitted;
      if state == CancelRequested { report := report.(outcome := Cancelled); }
      if report.outcome == Succeeded && failure.Some? { report := report.(outcome := Failed, summary := failure.value); }
      pending := pending + multiset{Submission(a, submitted, report)};
      return Pending(Submission(a, submitted, report));
    }

    method FailCompletion(s: Submission, summary: string) returns (answer: Answer)
      modifies this
      ensures Tx(Value(), answer) == FailPending(old(Value()), s, summary)
    {
      if s !in pending { return Refused(Conflict); }
      var failed := s.(report := s.report.(outcome := Failed, summary := summary));
      pending := pending - multiset{s} + multiset{failed};
      return Pending(failed);
    }

    method EndCompletion(s: Submission, authorized: bool, publishable: bool) returns (answer: Answer)
      requires ForeignKeys(Value())
      modifies this
      ensures var t := EndResult(old(Value()), s, authorized, publishable); answer == t.answer && (answer.Refused? || Value() == t.rows)
    {
      hide FinishResult, Unresolved;
      if s !in pending || s.attempt >= |attempts| || !authorized { return Refused(Forbidden); }
      if |results| > 0 {
        answer := AnswerDecided(s.attempt, s.submitted);
        return;
      }
      if !Current(Value(), s.attempt) || Unresolved(publications) { return Refused(Conflict); }
      var report := s.report;
      if state == CancelRequested {
        late := late + [LateResult(s.attempt, s.submitted)];
        report := report.(outcome := Cancelled);
      } else if state !in {Claimed, Running} {
        return Refused(Conflict);
      } else if report.outcome == Succeeded && !publishable {
        report := report.(outcome := Failed, summary := "authorization_unavailable");
      }
      answer := Finish(s.attempt, report, s.submitted);
    }

    /* ---- publication ---- */

    method KeepOutcome(op: nat, outcome: PublicationState)
      requires op < |publications|
      modifies this
      ensures Value() == StoreOutcome(old(Value()), op, outcome)
    {
      if !Resolved(publications[op]) {
        publications := publications[op := publications[op].(state := outcome)];
      }
    }

    method ReconcilePublication(op: nat, seen: bool) returns (answer: Answer)
      modifies this
      ensures Tx(Value(), answer) == Reconcile(old(Value()), op, seen)
    {
      if publisher.Some? || op >= |publications| { return Refused(Conflict); }
      var outcome := Unknown;
      if publications[op].state == Prepared {
        outcome := PublicationFailed;
      } else if seen {
        outcome := Confirmed;
      }
      KeepOutcome(op, outcome);
      return Published(outcome);
    }

    method BeginPublication(a: nat, artifact: string, head: string, authorized: bool, publishable: bool, seen: bool) returns (answer: Answer)
      requires ForeignKeys(Value())
      modifies this
      ensures Tx(Value(), answer) == BeginPublish(old(Value()), a, artifact, head, authorized, publishable, seen)
    {
      hide Reconcile;
      if publisher.Some? || a >= |attempts| || !authorized { return Refused(Forbidden); }
      var n := |publications|;
      if n > 0 && ((publications[n - 1].attempt == a && publications[n - 1].artifact == artifact) || !Resolved(publications[n - 1])) {
        if Resolved(publications[n - 1]) { return Published(publications[n - 1].state); }
        answer := ReconcilePublication(n - 1, seen);
        return;
      }
      if state != Running || !Current(Value(), a) || !attempts[a].stopped || !publishable { return Refused(Conflict); }
      var expected := None;
      if n > 0 && publications[n - 1].state == Confirmed { expected := Some(publications[n - 1].head); }
      publications := publications + [Publication(a, artifact, head, expected, Prepared)];
      publisher := Some(ToSend(n));
      return Done;
    }

    method SendPublication(authorized: bool) returns (answer: Answer)
      requires ForeignKeys(Value())
      modifies this
      ensures Tx(Value(), answer) == OpenSendGate(old(Value()), authorized)
    {
      if !(publisher.Some? && publisher.value.ToSend?) { return Refused(Conflict); }
      var op := publisher.value.op;
      if !authorized || state != Running {
        KeepOutcome(op, PublicationFailed);
        publisher := None;
        return Published(PublicationFailed);
      }
      if publications[op].state == Prepared {
        publications := publications[op := publications[op].(state := Sent)];
      }
      publisher := Some(ToCall(op));
      return Done;
    }

    method PortCalled() returns (answer: Answer)
      modifies this
      ensures Tx(Value(), answer) == CallPort(old(Value()))
    {
      if !(publisher.Some? && publisher.value.ToCall?) { return Refused(Conflict); }
      var op := publisher.value.op;
      portCalls := portCalls + [Left(op)];
      publisher := Some(ToReturn(op));
      return Done;
    }

    method PortReturned(status: ReceiptStatus, issued: bool) returns (answer: Answer)
      modifies this
      ensures Tx(Value(), answer) == ReturnPort(old(Value()), status, issued)
    {
      if !(publisher.Some? && publisher.value.ToReturn?) || (status == SaysFailed && issued) { return Refused(Conflict); }
      var op := publisher.value.op;
      portCalls := portCalls + [Back(op, issued)];
      publisher := Some(ToStore(op, status));
      return Done;
    }

    method StorePublication() returns (answer: Answer)
      requires ForeignKeys(Value())
      modifies this
      ensures Tx(Value(), answer) == StoreReceipt(old(Value()))
    {
      if !(publisher.Some? && publisher.value.ToStore?) { return Refused(Conflict); }
      var outcome := Stored(publisher.value.status);
      KeepOutcome(publisher.value.op, outcome);
      publisher := None;
      return Published(outcome);
    }

    method PublisherDied() returns (answer: Answer)
      modifies this
      ensures Tx(Value(), answer) == Crash(old(Value()))
    {
      publisher := None;
      return Done;
    }

    method ResolvePublication(op: nat, key: string, authorized: bool, attestation: Attestation) returns (answer: Answer)
      modifies this
      ensures Tx(Value(), answer) == Resolve(old(Value()), op, key, authorized, attestation)
    {
      if publisher.Some? || op >= |publications| || !authorized { return Refused(Forbidden); }
      if key in resolutions {
        if resolutions[key] != Resolution(op, attestation.digest) { return Refused(IdempotencyConflict); }
        return Published(publications[op].state);
      }
      if publications[op].state != Unknown || attestation.remoteHead == Some(publications[op].head) || !attestation.valid { return Refused(Conflict); }
      publications := publications[op := publications[op].(state := PublicationFailed)];
      resolutions := resolutions[key := Resolution(op, attestation.digest)];
      return Published(PublicationFailed);
    }
  }
}
