// What holds of the rows of one request after any transaction whatever, stale stops included.
module DispatchSoundness {
  import opened Options
  import opened DispatchRows
  import opened DispatchRules
  import opened DispatchInvariants
  import opened DispatchEvolution

  /* ---- every transaction but a stale stop keeps the invariant ---- */

  // The operation is a stale stop: see DispatchInvariants.StaleStop.
  predicate StaleOp(l: Ledger, op: Op) { op.StopAttempt? && op.a < |l.attempts| && StaleStop(l, op.a) }

  lemma LifecycleInv(l: Ledger, op: Op, i: Incarnation, free: bool)
    requires Inv(l) && Lifecycle(op)
    requires !StaleOp(l, op)
    ensures Inv(Perform(l, op, i, free).rows)
  {
    hide Inv, Prepare, Reserve, Retire, RejectUnstarted, Claim, Start, Renew, Resume, Expire, SubmitStop, SubmitClaimBoundStop, CloseOrphan,
         Cancel, Recover, BeginResult, EndResult, BeginPublish, OpenSendGate, CallPort, ReturnPort, StoreReceipt, Crash, Reconcile, Resolve, FailPending;
    Keys(l);
    match op
    case PrepareSources(valid) => PrepareInv(l, valid);
    case ReserveSlot(route, incarnation, eligible, now) => ReserveInv(l, route, incarnation, i.slot, free, eligible && !i.signedOff, now);
    case RetireExpired(jobIdle, now) => RetireInv(l, jobIdle, now);
    case RejectRequest(reason, jobIdle) => RejectInv(l, reason, jobIdle);
    case ClaimAttempt(incarnation, claimKey, authorized, eligible, now) => ClaimInv(l, incarnation, i, claimKey, free, authorized, eligible, now);
    case StartAttempt(a, scope, authorized, now, maxDuration) => StartInv(l, a, i, scope, authorized, now, maxDuration);
    case RenewAttempt(a, scopeId, authorized, now, maxDuration) => RenewInv(l, a, i, scopeId, authorized, now, maxDuration);
    case ResumeAttempt(a, scope, authorized, now, maxDuration) => ResumeInv(l, a, i, scope, authorized, now, maxDuration);
    case ExpireAttempt(a, now, maxDuration) => ExpireInv(l, a, now, maxDuration);
    case StopAttempt(a, authorized, observation) => SubmitStopInv(l, a, authorized, observation);
    case StopUnstarted(a, authorized, reason, digest, scopedEvidence, timely) => ClaimBoundStopInv(l, a, authorized, reason, digest, scopedEvidence, timely);
    case CloseSignedOff(a) => OrphanInv(l, a, i);
  }

  lemma OutcomeInv(l: Ledger, op: Op, i: Incarnation, free: bool)
    requires Inv(l) && !Lifecycle(op)
    ensures Inv(Perform(l, op, i, free).rows)
  {
    hide Inv, Prepare, Reserve, Retire, RejectUnstarted, Claim, Start, Renew, Resume, Expire, SubmitStop, SubmitClaimBoundStop, CloseOrphan,
         Cancel, Recover, BeginResult, EndResult, BeginPublish, OpenSendGate, CallPort, ReturnPort, StoreReceipt, Crash, Reconcile, Resolve, FailPending;
    Keys(l);
    match op
    case CancelRequest(key, expectedVersion, authorized) => CancelInv(l, key, expectedVersion, authorized);
    case RecoverRequest(a, key, action, expectedVersion, evidence, mode, authorized, retryAllowed) =>
      RecoverInv(l, a, key, action, expectedVersion, evidence, mode, authorized, retryAllowed);
    case BeginCompletion(a, submitted, authorized, intact, failure) => BeginResultInv(l, a, submitted, authorized, intact, failure);
    case FailCompletion(submission, summary) => FailPendingInv(l, submission, summary);
    case EndCompletion(submission, authorized, publishable) => EndResultInv(l, submission, authorized, publishable);
    case BeginPublication(a, artifact, head, authorized, publishable, seen) => BeginPublishInv(l, a, artifact, head, authorized, publishable, seen);
    case SendPublication(authorized) => OpenSendGateInv(l, authorized);
    case PortCalled => CallPortInv(l);
    case PortReturned(outcome, issued) => ReturnPortInv(l, outcome, issued);
    case StorePublication => StoreReceiptInv(l);
    case PublisherDied => CrashInv(l);
    case ReconcilePublication(op, seen) => ReconcileInv(l, op, seen);
    case ResolvePublication(op, key, authorized, attestation) => ResolveInv(l, op, key, authorized, attestation);
  }

  lemma PerformInv(l: Ledger, op: Op, i: Incarnation, free: bool)
    requires Inv(l)
    requires !StaleOp(l, op)
    ensures Inv(Perform(l, op, i, free).rows)
  {
    hide Inv, Perform, StaleOp;
    if Lifecycle(op) { LifecycleInv(l, op, i, free); } else { OutcomeInv(l, op, i, free); }
  }

  lemma Keys(l: Ledger)
    requires Inv(l)
    ensures ForeignKeys(l) && EndedHasResult(l)
  {}

  /* ---- what even a stale stop keeps ---- */

  // Each candidate has at most one attempt, and all attempts but the newest are over.
  predicate Attempted(candidates: seq<Candidate>, attempts: seq<Attempt>) {
    && (forall a, b :: 0 <= a < b < |attempts| ==> attempts[a].candidate < attempts[b].candidate)
    && (forall a :: 0 <= a < |attempts| ==> attempts[a].candidate < |candidates| && candidates[attempts[a].candidate].claimed)
    && (forall k :: 0 <= k < |candidates| && candidates[k].claimed ==> AttemptOf(attempts, k).Some?)
    && (forall a :: 0 <= a && a + 1 < |attempts| ==> Settled(candidates, attempts[a]))
  }

  // The invariant without the lock step of request, candidate and attempt.
  predicate Kept(l: Ledger) {
    && ForeignKeys(l) && l.generation == |l.candidates| && (l.firstClaimed <==> |l.attempts| > 0)
    && Capacity(l.candidates, l.reservations)
    && Attempted(l.candidates, l.attempts)
    && Stops(l.attempts, l.stops)
    && Scopes(l.attempts, l.startedScopes, l.permits)
    && Results(l.state, l.resultId, l.results, l.accepted, l.attempts)
    && Outbox(l.state, l.version, l.outbox, l.results)
    && Publications(l.state, l.publications, l.attempts)
    && Sending(l.publications, l.portCalls, l.resolutions, l.publisher)
    && Retries(l.state, l.generation, l.firstClaimed, l.retryAuthorization, |l.attempts|, l.authorizations, l.consumed)
    && PendingResults(l.attempts, l.pending)
  }

  // In every reachable state the invariant holds, or the request has ended, by a stale stop, with the rest of it intact.
  predicate Sound(l: Ledger) { Inv(l) || (Kept(l) && Terminal(l.state)) }

  lemma InvKept(l: Ledger)
    requires Inv(l)
    ensures Kept(l)
  {
    hide Capacity, LockStep, Stops, Scopes, Results, Outbox, Publications, Sending, Retries, PendingResults;
    assert Attempted(l.candidates, l.attempts) by {
      forall a | 0 <= a && a + 1 < |l.attempts| ensures Settled(l.candidates, l.attempts[a]) {}
    }
  }

  lemma SoundKept(l: Ledger)
    requires Sound(l)
    ensures Kept(l) && ForeignKeys(l) && EndedHasResult(l) && (!Terminal(l.state) ==> Inv(l))
  {
    hide Inv, Capacity, Attempted, Stops, Scopes, Outbox, Publications, Sending, Retries, PendingResults;
    if Inv(l) { InvKept(l); }
  }

  // What every attempt row satisfies by itself.
  lemma KeptFacts(l: Ledger, a: nat)
    requires Kept(l) && a < |l.attempts|
    ensures var row := l.attempts[a];
            && (row.stopped ==> row.revoked) && (row.stopped <==> HasStop(l.stops, a))
            && (row.scopeId.Some? <==> HasStarted(l.startedScopes, a)) && (row.scopeId.Some? <==> row.startedAt.Some?)
  {
    hide Capacity, Attempted, Results, Outbox, Publications, Sending, Retries, PendingResults;
  }

  lemma EndedFacts(l: Ledger)
    requires Kept(l) && Terminal(l.state)
    ensures |l.results| == 1 && l.resultId == Some(0) && !Unresolved(l.publications) && l.publisher == None && ForeignKeys(l)
  {
    hide Capacity, Attempted, Stops, Scopes, Outbox, Retries, PendingResults;
  }

  /* ---- transactions on a request that has ended ---- */

  lemma EndedLifecycle(l: Ledger, op: Op, i: Incarnation, free: bool)
    requires ForeignKeys(l) && Terminal(l.state) && Lifecycle(op) && !op.StopAttempt?
    ensures Perform(l, op, i, free).rows == l
  {
    hide Unresolved, HasStarted, HasStop, RetryAuthority, MoveTogether, CloseUnstarted, ScopeOfIncarnation;
    if op.StopUnstarted? || op.CloseSignedOff? {
      assert op.a < |l.attempts| ==> !UnstartedSignature(l, op.a);
    }
  }

  lemma EndedOutcome(l: Ledger, op: Op, i: Incarnation, free: bool)
    requires ForeignKeys(l) && Terminal(l.state) && !Lifecycle(op) && !op.FailCompletion?
    requires |l.results| == 1 && l.resultId.Some? && !Unresolved(l.publications) && l.publisher == None
    ensures var m := Perform(l, op, i, free).rows; m == l.(late := m.late, cancelActions := m.cancelActions)
  {
    hide Perform;
    if Closing(op) { EndedClosing(l, op, i, free); } else { EndedPublishing(l, op, i, free); }
  }

  predicate Closing(op: Op) { op.CancelRequest? || op.RecoverRequest? || op.BeginCompletion? || op.EndCompletion? }

  lemma EndedClosing(l: Ledger, op: Op, i: Incarnation, free: bool)
    requires ForeignKeys(l) && Terminal(l.state) && Closing(op) && |l.results| == 1 && l.resultId.Some?
    ensures var m := Perform(l, op, i, free).rows; m == l.(late := m.late, cancelActions := m.cancelActions)
  {
    hide Cancel, Recover, BeginResult, EndResult, ForeignKeys;
    match op
    case CancelRequest(key, expectedVersion, authorized) => EndedCancel(l, key, expectedVersion, authorized);
    case RecoverRequest(a, key, action, expectedVersion, evidence, mode, authorized, retryAllowed) =>
      EndedRecover(l, a, key, action, expectedVersion, evidence, mode, authorized, retryAllowed);
    case BeginCompletion(a, submitted, authorized, intact, failure) => EndedBegin(l, a, submitted, authorized, intact, failure);
    case EndCompletion(submission, authorized, publishable) => EndedEnd(l, submission, authorized, publishable);
  }

  lemma EndedCancel(l: Ledger, key: string, expectedVersion: nat, authorized: bool)
    requires ForeignKeys(l) && Terminal(l.state)
    ensures var m := Cancel(l, key, expectedVersion, authorized).rows; m == l.(cancelActions := m.cancelActions)
  {
    hide CancelOpen;
  }

  lemma EndedRecover(l: Ledger, a: nat, key: string, action: string, expectedVersion: nat, e: RecoveryEvidence, mode: RecoveryMode,
                     authorized: bool, retryAllowed: bool)
    requires ForeignKeys(l) && l.resultId.Some?
    ensures Recover(l, a, key, action, expectedVersion, e, mode, authorized, retryAllowed).rows == l
  {
    hide AcceptRecoveryStop, EndRecovery, Unresolved;
  }

  lemma EndedBegin(l: Ledger, a: nat, submitted: Report, authorized: bool, intact: bool, failure: Option<string>)
    requires ForeignKeys(l) && |l.results| == 1
    ensures var m := BeginResult(l, a, submitted, authorized, intact, failure).rows; m == l.(late := m.late)
  {
    hide HasStop, Current;
  }

  lemma EndedEnd(l: Ledger, sub: Submission, authorized: bool, publishable: bool)
    requires ForeignKeys(l) && |l.results| == 1
    ensures var m := EndResult(l, sub, authorized, publishable).rows; m == l.(late := m.late)
  {
    hide FinishResult, Current, Unresolved;
  }

  lemma EndedPublishing(l: Ledger, op: Op, i: Incarnation, free: bool)
    requires ForeignKeys(l) && Terminal(l.state) && !Lifecycle(op) && !op.FailCompletion? && !Closing(op)
    requires !Unresolved(l.publications) && l.publisher == None
    ensures Perform(l, op, i, free).rows == l
  {
    hide HasStop, Current;
  }

  lemma KeptLate(l: Ledger, late: seq<LateResult>, cancels: map<string, nat>)
    requires Kept(l)
    ensures Kept(l.(late := late, cancelActions := cancels))
  {}

  lemma KeptFail(l: Ledger, sub: Submission, summary: string)
    requires Kept(l)
    ensures var m := FailPending(l, sub, summary).rows; Kept(m) && m == l.(pending := m.pending)
  {
    hide Capacity, Attempted, Stops, Scopes, Results, Outbox, Publications, Sending, Retries;
  }

  lemma AttemptedRewrites(cs: seq<Candidate>, attempts: seq<Attempt>, row: Attempt)
    requires Attempted(cs, attempts) && |attempts| > 0 && row.candidate == attempts[|attempts| - 1].candidate
    ensures Attempted(cs, attempts[|attempts| - 1 := row])
  {
    AttemptsKept(attempts, attempts[|attempts| - 1 := row]);
  }

  lemma ResultsRewrite(state: Status, resultId: Option<nat>, results: seq<Result>, accepted: seq<ResultAccepted>, attempts: seq<Attempt>, row: Attempt)
    requires Results(state, resultId, results, accepted, attempts) && |attempts| > 0
    requires row.status == attempts[|attempts| - 1].status && row.scopeId == attempts[|attempts| - 1].scopeId
    ensures Results(state, resultId, results, accepted, attempts[|attempts| - 1 := row])
  {}

  lemma ScopeStatus(l: Ledger, a: nat)
    requires Kept(l) && a < |l.attempts|
    ensures l.attempts[a].status == Claimed ==> l.attempts[a].scopeId.None?
    ensures l.attempts[a].status == Running ==> l.attempts[a].scopeId.Some?
  {
    hide Capacity, Attempted, Stops, Results, Outbox, Publications, Sending, Retries, PendingResults;
  }

  // A stop accepted for the newest attempt keeps the rest, also when the request has ended.
  lemma KeptStop(l: Ledger, a: nat, kind: StopKind, digest: string)
    requires Kept(l) && a + 1 == |l.attempts| && !l.attempts[a].stopped
    ensures Kept(AcceptStop(l, a, kind, digest))
  {
    hide Capacity, Attempted, Stops, Scopes, Results, Outbox, Publications, Sending, Retries, PendingResults;
    var row := l.attempts[a].(stopped := true, revoked := true);
    ScopeStatus(l, a);
    StopsAccept(l.attempts, l.stops, StopAccepted(a, kind, digest));
    ScopesKept(l.attempts, l.startedScopes, l.permits, row);
    AttemptedRewrites(l.candidates, l.attempts, row);
    ResultsRewrite(l.state, l.resultId, l.results, l.accepted, l.attempts, row);
    PublicationsRewrite(l.state, l.publications, l.attempts, row);
    PendingRewrite(l.attempts, l.pending, row);
  }

  lemma UnstoppedIsLast(l: Ledger, a: nat)
    requires Kept(l) && a < |l.attempts| && FindStop(l.stops, a).None?
    ensures a + 1 == |l.attempts| && !l.attempts[a].stopped
  {
    hide Capacity, Scopes, Results, Outbox, Publications, Sending, Retries, PendingResults;
    assert !HasStop(l.stops, a);
    assert a + 1 < |l.attempts| ==> Settled(l.candidates, l.attempts[a]);
  }

  lemma EndedStop(l: Ledger, a: nat, authorized: bool, o: Observation)
    requires Kept(l) && Terminal(l.state)
    ensures var m := SubmitStop(l, a, authorized, o).rows;
            && Kept(m) && m.state == l.state && m.candidates == l.candidates && m.reservations == l.reservations && |m.attempts| == |l.attempts|
  {
    hide Kept, Unresolved, HasStarted, RecordedScope, Settled;
    if a < |l.attempts| && FindStop(l.stops, a).None? {
      UnstoppedIsLast(l, a);
      KeptStop(l, a, ContainerStopped, o.digest);
    }
  }

  // A request that has ended keeps all this, whatever follows, and its capacity rows do not move.
  lemma EndedStaysKept(l: Ledger, op: Op, i: Incarnation, free: bool)
    requires Kept(l) && Terminal(l.state)
    ensures ForeignKeys(l)
    ensures var m := Perform(l, op, i, free).rows;
            && Kept(m) && m.state == l.state && m.candidates == l.candidates && m.reservations == l.reservations && |m.attempts| == |l.attempts|
  {
    hide Kept, SubmitStop, Perform, FailPending, ForeignKeys;
    EndedFacts(l);
    if op.StopAttempt? { PerformsStop(l, op, i, free); EndedStop(l, op.a, op.authorized, op.observation); }
    else if op.FailCompletion? { PerformsStop(l, op, i, free); KeptFail(l, op.submission, op.summary); }
    else { EndedOthers(l, op, i, free); }
  }

  lemma PerformsStop(l: Ledger, op: Op, i: Incarnation, free: bool)
    requires ForeignKeys(l)
    ensures op.StopAttempt? ==> Perform(l, op, i, free) == SubmitStop(l, op.a, op.authorized, op.observation)
    ensures op.FailCompletion? ==> Perform(l, op, i, free) == FailPending(l, op.submission, op.summary)
  {
    hide SubmitStop, FailPending;
  }

  lemma EndedOthers(l: Ledger, op: Op, i: Incarnation, free: bool)
    requires Kept(l) && Terminal(l.state) && ForeignKeys(l) && !op.StopAttempt? && !op.FailCompletion?
    ensures var m := Perform(l, op, i, free).rows;
            && Kept(m) && m.state == l.state && m.candidates == l.candidates && m.reservations == l.reservations && |m.attempts| == |l.attempts|
  {
    EndedFacts(l);
    hide Kept, Perform, Unresolved;
    if Lifecycle(op) { EndedLifecycle(l, op, i, free); }
    else {
      EndedOutcome(l, op, i, free);
      KeptLate(l, Perform(l, op, i, free).rows.late, Perform(l, op, i, free).rows.cancelActions);
    }
  }

  /* ---- the stale stop itself ---- */

  lemma StaleIsSettled(l: Ledger, a: nat)
    requires Inv(l) && a < |l.attempts| && StaleStop(l, a)
    ensures Settled(l.candidates, l.attempts[a]) && HasStop(l.stops, a) && l.results == [] && l.accepted == []
    ensures l.candidates[l.attempts[a].candidate].status == Finished && l.reservations[l.attempts[a].candidate].released
  {
    hide Scopes, Outbox, Publications, Sending, Retries, PendingResults;
    assert Settled(l.candidates, l.attempts[a]) || (Live(l.state) && a + 1 == |l.attempts|);
  }

  lemma StaleReplays(l: Ledger, a: nat, o: Observation)
    requires ForeignKeys(l) && a < |l.attempts| && HasStop(l.stops, a) && !AcceptScopedStop(l, a, o).answer.Refused?
    ensures AcceptScopedStop(l, a, o).rows == l
  {
    hide Unresolved, HasStarted, RecordedScope;
    assert FindStop(l.stops, a).Some?;
  }

  lemma StopsStatus(attempts: seq<Attempt>, stops: seq<StopAccepted>, a: nat, row: Attempt)
    requires Stops(attempts, stops) && a < |attempts| && row == attempts[a].(status := row.status)
    ensures Stops(attempts[a := row], stops)
  {}

  lemma ScopesStatus(attempts: seq<Attempt>, started: seq<StartedScope>, permits: seq<StartPermit>, a: nat, row: Attempt)
    requires Scopes(attempts, started, permits) && a < |attempts| && row == attempts[a].(status := Cancelled)
    ensures Scopes(attempts[a := row], started, permits)
  {}

  lemma PendingStatus(attempts: seq<Attempt>, pending: multiset<Submission>, a: nat, row: Attempt)
    requires PendingResults(attempts, pending) && a < |attempts| && row == attempts[a].(status := row.status)
    ensures PendingResults(attempts[a := row], pending)
  {}

  lemma AttemptedStatus(cs: seq<Candidate>, attempts: seq<Attempt>, a: nat, row: Attempt)
    requires Attempted(cs, attempts) && a < |attempts| && Settled(cs, attempts[a]) && row == attempts[a].(status := Cancelled)
    ensures Attempted(cs, attempts[a := row])
  {
    AttemptsKept(attempts, attempts[a := row]);
  }

  // A settled row takes another terminal status.
  lemma SettledRewrites(l: Ledger, a: nat, row: Attempt)
    requires Kept(l) && a < |l.attempts| && Settled(l.candidates, l.attempts[a]) && row == l.attempts[a].(status := Cancelled)
    ensures Stops(l.attempts[a := row], l.stops) && Scopes(l.attempts[a := row], l.startedScopes, l.permits)
    ensures PendingResults(l.attempts[a := row], l.pending) && Attempted(l.candidates, l.attempts[a := row])
  {
    hide Capacity, Results, Outbox, Publications, Sending, Retries, Stops, Scopes, Attempted, PendingResults, Settled;
    StopsStatus(l.attempts, l.stops, a, row);
    ScopesStatus(l.attempts, l.startedScopes, l.permits, a, row);
    PendingStatus(l.attempts, l.pending, a, row);
    AttemptedStatus(l.candidates, l.attempts, a, row);
  }

  lemma ResolvedStays(l: Ledger, next: Status, attempts: seq<Attempt>)
    requires Kept(l) && !Unresolved(l.publications) && |attempts| == |l.attempts|
    ensures Publications(next, l.publications, attempts)
  {
    hide Capacity, Attempted, Stops, Scopes, Results, Outbox, Sending, Retries, PendingResults;
  }

  // What a stale stop leaves: the request has ended by it, its capacity rows stand still, and all but the lock step holds.
  lemma StaleIsKept(l: Ledger, a: nat, authorized: bool, o: Observation)
    requires Inv(l) && a < |l.attempts| && StaleStop(l, a)
    ensures var t := SubmitStop(l, a, authorized, o); var m := t.rows;
            if t.answer.Refused? then m == l
            else Kept(m) && m.state == Cancelled && m.candidates == l.candidates && m.reservations == l.reservations && |m.attempts| == |l.attempts|
  {
    hide Inv, Kept, Unresolved, AcceptScopedStop, FinishStoppedCancellation, Settled, HasStop;
    SoundKept(l);
    StaleIsSettled(l, a);
    if authorized && !AcceptScopedStop(l, a, o).answer.Refused? {
      StaleReplays(l, a, o);
      StaleFinishes(l, a, AcceptScopedStop(l, a, o).answer);
    }
  }

  lemma StaleFinishes(l: Ledger, a: nat, receipt: Answer)
    requires Kept(l) && a < |l.attempts| && l.state == CancelRequested && !Unresolved(l.publications) && !receipt.Refused?
    requires Settled(l.candidates, l.attempts[a]) && l.results == [] && l.accepted == []
    requires l.candidates[l.attempts[a].candidate].status == Finished && l.reservations[l.attempts[a].candidate].released
    ensures var t := FinishStoppedCancellation(l, a, receipt); var m := t.rows;
            && t.answer == receipt && Kept(m) && m.state == Cancelled && m.candidates == l.candidates && m.reservations == l.reservations
            && |m.attempts| == |l.attempts|
  {
    hide Capacity, Attempted, Stops, Scopes, Outbox, Publications, Sending, PendingResults;
    var row := l.attempts[a].(status := Cancelled);
    SettledRewrites(l, a, row);
    ResolvedStays(l, Cancelled, l.attempts[a := row]);
    KeptOutbox(l);
    OutboxGrows(l.(results := [Result(Some(a), StoppedCancellation)]), Cancelled, Some(0));
    var m := FinishStoppedCancellation(l, a, receipt).rows;
    assert m.attempts == l.attempts[a := row];
    assert m.candidates == l.candidates && m.reservations == l.reservations;
  }

  lemma KeptOutbox(l: Ledger)
    requires Kept(l) && !Terminal(l.state)
    ensures l.version == |l.outbox| > 0 && l.outbox[0].state == Waiting && l.resultId == None && |l.results| == 0
    ensures forall i :: 0 <= i < |l.outbox| ==> l.outbox[i].version == i + 1 && l.outbox[i].reply.None? && !Terminal(l.outbox[i].state)
  {
    hide Capacity, Attempted, Stops, Scopes, Publications, Sending, Retries, PendingResults;
    OutboxOpen(l);
  }

  // Every transaction leaves sound rows sound.
  lemma PerformSound(l: Ledger, op: Op, i: Incarnation, free: bool)
    requires Sound(l)
    ensures ForeignKeys(l) && Sound(Perform(l, op, i, free).rows)
    ensures !Inv(l) || StaleOp(l, op) ==>
              var m := Perform(l, op, i, free).rows;
              m == l || (m.candidates == l.candidates && m.reservations == l.reservations && |m.attempts| == |l.attempts|)
  {
    SoundKept(l);
    hide Inv, Kept, SubmitStop, StaleStop;
    if !Inv(l) {
      hide Perform;
      EndedStaysKept(l, op, i, free);
    } else if StaleOp(l, op) {
      StaleIsKept(l, op.a, op.authorized, op.observation);
    } else {
      hide Perform;
      PerformInv(l, op, i, free);
    }
  }

  lemma SubmittedSound()
    ensures Sound(Submitted())
  {
    hide Inv;
    SubmittedInv();
  }
}
