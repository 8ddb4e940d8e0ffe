// What a transaction leaves alone: generations and claims, permits and port calls, stops, the publisher's lock.
module DispatchFrames {
  import opened Options
  import opened DispatchRows
  import opened DispatchRules
  import opened DispatchEvolution

  /* ---- what only one kind of transaction can do ---- */

  // Only a reservation raises the generation, and only a claim spends a retry authorization.
  function Counters(l: Ledger): (nat, seq<RetryConsumed>, bool) { (l.generation, l.consumed, l.firstClaimed) }

  // No start permit is issued, the port is not called and the request does not become a success.
  predicate Calm(l: Ledger, m: Ledger) {
    && Counters(m) == Counters(l) && m.permits == l.permits && m.portCalls == l.portCalls
    && (m.state == Succeeded ==> l.state == Succeeded)
  }

  // The publisher's lock stays with its holder, who has not moved on.
  predicate Held(l: Ledger, m: Ledger) { l.publisher.Some? ==> m.publisher == l.publisher }

  // No publication changes, nor who holds the lock.
  predicate Aside(l: Ledger, m: Ledger) { m.publications == l.publications && m.publisher == l.publisher }

  predicate Quiet(l: Ledger, m: Ledger) { Calm(l, m) && Aside(l, m) }

  // The steps of the process that holds the publisher's lock.
  predicate OfPublisher(op: Op) { op.SendPublication? || op.PortCalled? || op.PortReturned? || op.StorePublication? || op.PublisherDied? }

  // The steps that prepare, send, settle or give up a publication.
  predicate OfPublication(op: Op) { OfPublisher(op) || op.BeginPublication? || op.ReconcilePublication? || op.ResolvePublication? }

  // A call of the sending port leaves or comes back.
  predicate OfPort(op: Op) { op.PortCalled? || op.PortReturned? }

  // Quiet, and no stop is accepted either.
  predicate Still(l: Ledger, m: Ledger) { Quiet(l, m) && m.stops == l.stops }

  lemma FinishCounts(l: Ledger, a: nat, report: Report, submitted: Report)
    requires ForeignKeys(l) && a < |l.attempts|
    ensures report.outcome != Succeeded ==> Still(l, FinishResult(l, a, report, submitted).rows)
    ensures FinishResult(l, a, report, submitted).rows.stops == l.stops
    ensures var m := FinishResult(l, a, report, submitted).rows;
            Counters(m) == Counters(l) && m.permits == l.permits && m.portCalls == l.portCalls && Aside(l, m)
  {
    hide FinishResult;
    FinishKeeps(l, a, report, submitted);
    FinishState(l, a, report, submitted);
  }

  lemma FinishState(l: Ledger, a: nat, report: Report, submitted: Report)
    requires ForeignKeys(l) && a < |l.attempts|
    ensures FinishResult(l, a, report, submitted).rows.state in {l.state, report.outcome}
  {
    hide Unresolved, Terminalize;
    var inserted := InsertResult(l, Some(a), report);
    if inserted.Some? { TerminalizeRows(Transition(inserted.value.0, report.outcome, Some(inserted.value.1)), a, report.outcome); }
  }

  lemma RecordCounts(l: Ledger, a: nat, kind: StopKind, digest: string)
    requires ForeignKeys(l) && a < |l.attempts|
    ensures Quiet(l, RecordStop(l, a, kind, digest).rows)
  {
    hide FindStop;
  }

  lemma StopCounts(l: Ledger, a: nat, o: Observation)
    requires ForeignKeys(l) && a < |l.attempts|
    ensures Quiet(l, AcceptScopedStop(l, a, o).rows)
  {
    hide Unresolved, RecordedScope, HasStarted, RecordStop;
    RecordCounts(l, a, ContainerStopped, o.digest);
  }

  lemma RecoveryStopCounts(l: Ledger, a: nat, e: RecoveryEvidence)
    requires ForeignKeys(l) && a < |l.attempts|
    ensures Quiet(l, AcceptRecoveryStop(l, a, e).rows)
  {
    hide AcceptScopedStop, HasStarted, RecordStop;
    match e
    case FromRuntime(o) => StopCounts(l, a, o);
    case Attested(rebooted, digest, valid) => RecordCounts(l, a, AttestedKind(rebooted), digest);
  }

  lemma CancellationCounts(l: Ledger, a: nat, answer: Answer)
    requires ForeignKeys(l) && a < |l.attempts|
    ensures Still(l, FinishStoppedCancellation(l, a, answer).rows)
  {
    hide FinishResult, Unresolved;
    FinishCounts(l, a, StoppedCancellation, StoppedCancellation);
  }

  lemma SubmitCounts(l: Ledger, a: nat, authorized: bool, o: Observation)
    requires ForeignKeys(l)
    ensures Quiet(l, SubmitStop(l, a, authorized, o).rows)
  {
    hide AcceptScopedStop, FinishStoppedCancellation;
    if a < |l.attempts| {
      StopCounts(l, a, o);
      var stop := AcceptScopedStop(l, a, o);
      CancellationCounts(stop.rows, a, stop.answer);
    }
  }

  lemma CloseCounts(l: Ledger, a: nat, kind: StopKind, digest: string, failure: Report, receipt: Answer)
    requires ForeignKeys(l) && a < |l.attempts| && failure.outcome == Failed
    ensures Quiet(l, CloseUnstarted(l, a, kind, digest, failure, receipt).rows)
  {
    hide FinishResult, FinishStoppedCancellation;
    var stopped := AcceptStop(l, a, kind, digest);
    CancellationCounts(stopped, a, receipt);
    FinishCounts(stopped, a, failure, failure);
  }

  lemma UnstartedCounts(l: Ledger, a: nat, authorized: bool, reason: string, digest: string, scopedEvidence: bool, timely: bool, i: Incarnation)
    requires ForeignKeys(l)
    ensures Quiet(l, SubmitClaimBoundStop(l, a, authorized, reason, digest, scopedEvidence, timely).rows)
    ensures Quiet(l, CloseOrphan(l, a, i).rows)
  {
    hide CloseUnstarted, UnstartedSignature, HasStop;
    if a < |l.attempts| {
      CloseCounts(l, a, ClaimBound, digest, ClaimBoundFailure(reason), StopReceipt(|l.stops|));
      CloseCounts(l, a, SignedOffUnstarted, "", SignedOffBeforeStart, Done);
    }
  }

  lemma CancelCounts(l: Ledger, key: string, expectedVersion: nat, authorized: bool)
    requires ForeignKeys(l)
    ensures Still(l, Cancel(l, key, expectedVersion, authorized).rows)
  {
    hide CancelOpen;
    CancelOpenCounts(l);
  }

  lemma CancelOpenCounts(l: Ledger)
    requires ForeignKeys(l)
    ensures Still(l, CancelOpen(l).rows)
  {
    hide FinishResult, Unresolved, RetryAuthority, CancelForStop, RetireOpen, InsertResult;
    RetiredCounts(l);
    var c := OpenCandidate(l);
    if c.Some? && AttemptOf(l.attempts, c.value).Some? { ExpiryCounts(l, AttemptOf(l.attempts, c.value).value); }
    if c.Some? {
      var a := AttemptOf(l.attempts, c.value);
      if a.Some? {
        FinishCounts(if l.state == CancelRequested then l else CancelForStop(l, a.value), a.value, CancelledByRequester, CancelledByRequester);
      }
    }
  }

  lemma RetiredCounts(l: Ledger)
    requires ForeignKeys(l)
    ensures var inserted := InsertResult(RetireOpen(l), None, CancelledByRequester);
            inserted.Some? ==> Still(l, Transition(inserted.value.0, Cancelled, Some(inserted.value.1)))
  {
    hide RetireOpen;
    RetireCounts(l);
  }

  lemma EndCounts(l: Ledger, s: Submission, authorized: bool, publishable: bool)
    requires ForeignKeys(l)
    ensures var m := EndResult(l, s, authorized, publishable).rows; Counters(m) == Counters(l) && m.permits == l.permits && m.portCalls == l.portCalls && m.stops == l.stops && Aside(l, m)
  {
    hide FinishResult, Unresolved;
    if s.attempt < |l.attempts| {
      FinishCounts(l.(late := l.late + [LateResult(s.attempt, s.submitted)]), s.attempt, s.report.(outcome := Cancelled), s.submitted);
      FinishCounts(l, s.attempt, s.report, s.submitted);
      FinishCounts(l, s.attempt, s.report.(outcome := Failed, summary := "authorization_unavailable"), s.submitted);
    }
  }

  lemma RecoverCounts(l: Ledger, a: nat, key: string, action: string, expectedVersion: nat, e: RecoveryEvidence, mode: RecoveryMode,
                      authorized: bool, retryAllowed: bool)
    requires ForeignKeys(l)
    ensures Quiet(l, Recover(l, a, key, action, expectedVersion, e, mode, authorized, retryAllowed).rows)
  {
    hide AcceptRecoveryStop, EndRecovery, Unresolved;
    if a < |l.attempts| {
      RecoveryStopCounts(l, a, e);
      RecoveryEndCounts(AcceptRecoveryStop(l, a, e).rows, a, mode, retryAllowed);
    }
  }

  lemma RecoveryEndCounts(l: Ledger, a: nat, mode: RecoveryMode, allowed: bool)
    requires ForeignKeys(l) && a < |l.attempts|
    ensures Still(l, EndRecovery(l, a, mode, allowed).rows)
  {
    hide FinishResult, AuthorizeRetry;
    FinishCounts(l, a, RecoveryReport(mode), RecoveryReport(mode));
    RetryCounts(l, a, allowed);
  }

  lemma RetryCounts(l: Ledger, a: nat, allowed: bool)
    requires ForeignKeys(l) && a < |l.attempts|
    ensures Still(l, AuthorizeRetry(l, a, allowed).rows)
  {
    hide Terminalize;
    TerminalizeRows(l, a, Failed);
  }

  lemma MoveCounts(l: Ledger, a: nat, row: Attempt)
    requires ForeignKeys(l) && a < |l.attempts|
    ensures row.status != Succeeded ==> Still(l, MoveTogether(l, a, row))
  {}

  lemma LeaseCounts(l: Ledger, a: nat, i: Incarnation, scope: Scope, authorized: bool, now: int, maxDuration: int)
    requires ForeignKeys(l)
    ensures var m := Start(l, a, i, scope, authorized, now, maxDuration).rows; Counters(m) == Counters(l) && m.portCalls == l.portCalls && m.stops == l.stops && Aside(l, m) && (m.state == Succeeded ==> l.state == Succeeded)
    ensures Still(l, Resume(l, a, i, scope, authorized, now, maxDuration).rows)
  {
    hide HasStop, RecordedScope, Active, MoveTogether;
    if a < |l.attempts| {
      MoveCounts(l.(startedScopes := l.startedScopes + [StartedScope(a, scope)]), a,
                 l.attempts[a].(status := Running, scopeId := Some(scope.scopeId), startedAt := Some(now), heartbeatAt := now));
      MoveCounts(l, a, l.attempts[a].(status := Running, heartbeatAt := now));
    }
  }

  lemma ExpiryCounts(l: Ledger, a: nat)
    requires ForeignKeys(l) && a < |l.attempts|
    ensures Still(l, LeaseExpired(l, a)) && Still(l, CancelForStop(l, a))
    ensures ForeignKeys(LeaseExpired(l, a)) && |LeaseExpired(l, a).attempts| == |l.attempts|
    ensures ForeignKeys(CancelForStop(l, a)) && |CancelForStop(l, a).attempts| == |l.attempts|
  {
    hide MoveTogether, Still, ForeignKeys;
    MoveCounts(l, a, l.attempts[a].(status := Uncertain));
    MoveShape(l, a, l.attempts[a].(status := Uncertain));
    MoveCounts(l, a, l.attempts[a].(status := CancelRequested, revoked := true));
    MoveShape(l, a, l.attempts[a].(status := CancelRequested, revoked := true));
  }

  lemma MoveShape(l: Ledger, a: nat, row: Attempt)
    requires ForeignKeys(l) && a < |l.attempts| && row.candidate == l.attempts[a].candidate
    ensures ForeignKeys(MoveTogether(l, a, row)) && |MoveTogether(l, a, row).attempts| == |l.attempts|
  {}

  lemma RenewCounts(l: Ledger, a: nat, i: Incarnation, scopeId: Option<string>, authorized: bool, now: int, maxDuration: int)
    requires ForeignKeys(l)
    ensures Still(l, Renew(l, a, i, scopeId, authorized, now, maxDuration).rows)
    ensures Still(l, Expire(l, a, now, maxDuration).rows)
  {
    hide HasStop, Active, LeaseExpired, CancelForStop;
    if a < |l.attempts| {
      ExpiryCounts(l, a);
      ExpiryCounts(LeaseExpired(l, a), a);
    }
  }

  lemma StoreCounts(l: Ledger, op: nat, outcome: PublicationState)
    requires op < |l.publications|
    ensures StoreOutcome(l, op, outcome) == l.(publications := StoreOutcome(l, op, outcome).publications)
  {}

  lemma PublishCounts(l: Ledger, a: nat, artifact: string, head: string, authorized: bool, publishable: bool, seen: bool)
    requires ForeignKeys(l)
    ensures var m := BeginPublish(l, a, artifact, head, authorized, publishable, seen).rows; Calm(l, m) && Held(l, m) && m.stops == l.stops
  {
    hide StoreOutcome, Resolved;
    if |l.publications| > 0 {
      var op := |l.publications| - 1;
      StoreCounts(l, op, if l.publications[op].state == Prepared then PublicationFailed else if seen then Confirmed else Unknown);
    }
  }

  lemma SendCounts(l: Ledger, authorized: bool)
    requires ForeignKeys(l)
    ensures Calm(l, OpenSendGate(l, authorized).rows) && Calm(l, StoreReceipt(l).rows)
    ensures OpenSendGate(l, authorized).rows.stops == l.stops && StoreReceipt(l).rows.stops == l.stops
  {
    hide StoreOutcome;
    if l.publisher.Some? {
      StoreCounts(l, l.publisher.value.op, PublicationFailed);
      if l.publisher.value.ToStore? { StoreCounts(l, l.publisher.value.op, Stored(l.publisher.value.status)); }
    }
  }

  lemma RetirementCounts(l: Ledger, reason: string, jobIdle: bool, now: int)
    requires ForeignKeys(l)
    ensures Still(l, Retire(l, jobIdle, now).rows) && Still(l, RejectUnstarted(l, reason, jobIdle).rows)
  {
    hide RetryAuthority, RetireOpen;
    RetireCounts(l);
  }

  lemma BeginCounts(l: Ledger, a: nat, submitted: Report, authorized: bool, intact: bool, failure: Option<string>)
    requires ForeignKeys(l)
    ensures Still(l, BeginResult(l, a, submitted, authorized, intact, failure).rows)
  {
    hide HasStop, Current, AlreadyDecided;
    DecidedCounts(l, a, submitted);
  }

  lemma DecidedCounts(l: Ledger, a: nat, submitted: Report)
    ensures |l.results| > 0 ==> Still(l, AlreadyDecided(l, a, submitted).rows)
  {}

  lemma ReconcileCounts(l: Ledger, op: nat, seen: bool)
    ensures var m := Reconcile(l, op, seen).rows; Calm(l, m) && Held(l, m) && m.stops == l.stops
  {
    hide StoreOutcome;
    if op < |l.publications| {
      StoreCounts(l, op, if l.publications[op].state == Prepared then PublicationFailed else if seen then Confirmed else Unknown);
    }
  }

  lemma ResolveCounts(l: Ledger, op: nat, key: string, authorized: bool, attestation: Attestation)
    ensures var m := Resolve(l, op, key, authorized, attestation).rows; Calm(l, m) && Held(l, m) && m.stops == l.stops
  {}

  // Neither a reservation nor a claim touches a publication.
  lemma TakingAside(l: Ledger, op: Op, i: Incarnation, free: bool)
    requires ForeignKeys(l) && (op.ReserveSlot? || op.ClaimAttempt?)
    ensures Aside(l, Perform(l, op, i, free).rows)
  {
    hide RetryAuthority, Reserve, Claim;
    match op
    case ReserveSlot(route, incarnation, eligible, now) => ReserveAside(l, route, incarnation, i.slot, free, eligible && !i.signedOff, now);
    case ClaimAttempt(incarnation, claimKey, authorized, eligible, now) => ClaimAside(l, incarnation, i, claimKey, free, authorized, eligible, now);
  }

  lemma ReserveAside(l: Ledger, route: Route, incarnation: nat, slot: nat, free: bool, eligible: bool, now: int)
    requires ForeignKeys(l)
    ensures Aside(l, Reserve(l, route, incarnation, slot, free, eligible, now).rows)
  {
    hide RetryAuthority;
  }

  lemma ClaimAside(l: Ledger, incarnation: nat, i: Incarnation, claimKey: string, free: bool, authorized: bool, eligible: bool, now: int)
    requires ForeignKeys(l)
    ensures Aside(l, Claim(l, incarnation, i, claimKey, free, authorized, eligible, now).rows)
  {
    hide RetryAuthority;
  }

  lemma FailCounts(l: Ledger, s: Submission, summary: string)
    ensures Still(l, FailPending(l, s, summary).rows)
  {}

  lemma RetireCounts(l: Ledger)
    requires ForeignKeys(l)
    ensures RetireOpen(l) == l.(candidates := RetireOpen(l).candidates, reservations := RetireOpen(l).reservations)
  {}

  predicate MayStop(op: Op) { op.StopAttempt? || op.StopUnstarted? || op.CloseSignedOff? || op.RecoverRequest? }

  lemma LifecycleCounts(l: Ledger, op: Op, i: Incarnation, free: bool)
    requires ForeignKeys(l) && Lifecycle(op) && !op.ReserveSlot? && !op.ClaimAttempt?
    ensures Counters(Perform(l, op, i, free).rows) == Counters(l)
    ensures !op.StartAttempt? ==> Calm(l, Perform(l, op, i, free).rows)
    ensures Aside(l, Perform(l, op, i, free).rows)
    ensures !MayStop(op) ==> Perform(l, op, i, free).rows.stops == l.stops
  {
    hide Reserve, Retire, RejectUnstarted, Claim, SubmitStop, SubmitClaimBoundStop, CloseOrphan, Cancel, Recover, BeginResult, EndResult,
         Start, Renew, Resume, Expire, BeginPublish, OpenSendGate, StoreReceipt, Reconcile, Resolve, FailPending;
    match op
    case StartAttempt(a, scope, authorized, now, maxDuration) => LeaseCounts(l, a, i, scope, authorized, now, maxDuration);
    case RenewAttempt(a, scopeId, authorized, now, maxDuration) => RenewCounts(l, a, i, scopeId, authorized, now, maxDuration);
    case ResumeAttempt(a, scope, authorized, now, maxDuration) => LeaseCounts(l, a, i, scope, authorized, now, maxDuration);
    case ExpireAttempt(a, now, maxDuration) => RenewCounts(l, a, i, None, false, now, maxDuration);
    case StopAttempt(a, authorized, observation) => SubmitCounts(l, a, authorized, observation);
    case StopUnstarted(a, authorized, reason, digest, scopedEvidence, timely) => UnstartedCounts(l, a, authorized, reason, digest, scopedEvidence, timely, i);
    case CloseSignedOff(a) => UnstartedCounts(l, a, false, "", "", false, false, i);
    case RetireExpired(jobIdle, now) => RetirementCounts(l, "", jobIdle, now);
    case RejectRequest(reason, jobIdle) => RetirementCounts(l, reason, jobIdle, 0);
    case PrepareSources(valid) =>
  }

  lemma OutcomeCounts(l: Ledger, op: Op, i: Incarnation, free: bool)
    requires ForeignKeys(l) && !Lifecycle(op)
    ensures Counters(Perform(l, op, i, free).rows) == Counters(l)
    ensures !op.StartAttempt? && !OfPort(op) && !op.EndCompletion? ==> Calm(l, Perform(l, op, i, free).rows)
    ensures !OfPublisher(op) ==> Held(l, Perform(l, op, i, free).rows)
    ensures !OfPublication(op) ==> Aside(l, Perform(l, op, i, free).rows)
    ensures !MayStop(op) ==> Perform(l, op, i, free).rows.stops == l.stops
  {
    hide Reserve, Retire, RejectUnstarted, Claim, SubmitStop, SubmitClaimBoundStop, CloseOrphan, Cancel, Recover, BeginResult, EndResult,
         Start, Renew, Resume, Expire, BeginPublish, OpenSendGate, StoreReceipt, Reconcile, Resolve, FailPending;
    match op
    case CancelRequest(key, expectedVersion, authorized) => CancelCounts(l, key, expectedVersion, authorized);
    case EndCompletion(submission, authorized, publishable) => EndCounts(l, submission, authorized, publishable);
    case RecoverRequest(a, key, action, expectedVersion, evidence, mode, authorized, retryAllowed) =>
      RecoverCounts(l, a, key, action, expectedVersion, evidence, mode, authorized, retryAllowed);
    case BeginPublication(a, artifact, head, authorized, publishable, seen) => PublishCounts(l, a, artifact, head, authorized, publishable, seen);
    case SendPublication(authorized) => SendCounts(l, authorized);
    case StorePublication => SendCounts(l, false);
    case PortCalled =>
    case PortReturned(status, issued) =>
    case BeginCompletion(a, submitted, authorized, intact, failure) => BeginCounts(l, a, submitted, authorized, intact, failure);
    case ReconcilePublication(op, seen) => ReconcileCounts(l, op, seen);
    case ResolvePublication(op, key, authorized, attestation) => ResolveCounts(l, op, key, authorized, attestation);
    case FailCompletion(submission, summary) => FailCounts(l, submission, summary);
    case PublisherDied =>
  }

  lemma PerformCounts(l: Ledger, op: Op, i: Incarnation, free: bool)
    requires ForeignKeys(l) && !op.ReserveSlot? && !op.ClaimAttempt?
    ensures Counters(Perform(l, op, i, free).rows) == Counters(l)
    ensures !op.StartAttempt? && !OfPort(op) && !op.EndCompletion? ==> Calm(l, Perform(l, op, i, free).rows)
    ensures !OfPublisher(op) ==> Held(l, Perform(l, op, i, free).rows)
    ensures !OfPublication(op) ==> Aside(l, Perform(l, op, i, free).rows)
    ensures !MayStop(op) ==> Perform(l, op, i, free).rows.stops == l.stops
  {
    hide Perform, Counters, Calm;
    if Lifecycle(op) { LifecycleCounts(l, op, i, free); } else { OutcomeCounts(l, op, i, free); }
  }
}
