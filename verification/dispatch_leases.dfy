// Deadlines, leases and permits over two transactions: what one grants and the next one honours.
module DispatchLeases {
  import opened Options
  import opened DispatchRows
  import opened DispatchRules
  import opened DispatchInvariants
  import opened DispatchEvolution
  import opened DispatchFrames
  import opened DispatchSoundness
  import opened DispatchRuns
  import opened DispatchTheorems
  import opened DispatchOutcomes
  import opened DispatchService
  import opened DispatchDecisions

  // Resuming undoes an expiry: the same attempt runs on with its scope, and but for its heartbeat and two versions the rows are
  // what they were.
  lemma ResumeUndoesExpiry(l: Ledger, a: nat, i: Incarnation, scope: Scope, expired: int, now: int, maxDuration: int)
    requires Inv(l) && ForeignKeys(l) && l.state == Running && a + 1 == |l.attempts| && !l.attempts[a].stopped && Active(l, a, i) && ScopeOfIncarnation(scope, i)
    requires RecordedScope(l.startedScopes, a, scope) && l.attempts[a].startedAt.Some? && now - l.attempts[a].startedAt.value < maxDuration
    requires expired - l.attempts[a].heartbeatAt >= LEASE_MS && expired - l.attempts[a].startedAt.value < maxDuration
    ensures var m := Expire(l, a, expired, maxDuration).rows;
            && ForeignKeys(m) && a < |m.attempts| && m.state == Uncertain
            && var t := Resume(m, a, i, scope, true, now, maxDuration);
            && t.answer == Done
            && t.rows == l.(version := l.version + 2, attempts := l.attempts[a := l.attempts[a].(heartbeatAt := now)],
                            outbox := l.outbox + [Snapshot(l.version + 1, Uncertain, None), Snapshot(l.version + 2, Running, None)])
  {
    hide InvRest, Scopes, HasStop, RecordedScope, ScopeOfIncarnation;
    CurrentRow(l);
    NoReply(l);
    ScopeMatches(l, a, scope);
    ExpiredRows(l, a, i, expired, maxDuration);
    ResumedRows(l, a, i, scope, now, maxDuration);
  }

  lemma NoReply(l: Ledger)
    requires Inv(l) && Live(l.state)
    ensures l.resultId == None && l.generation == |l.candidates| && |l.attempts| > 0 && l.candidates[|l.candidates| - 1].status == l.state
    ensures |l.candidates| > 0 && l.attempts[|l.attempts| - 1].candidate == |l.candidates| - 1
  {
    hide Scopes, Stops, Sending, Retries, PendingResults, Publications, History, Capacity, Outbox;
  }

  lemma ScopeMatches(l: Ledger, a: nat, scope: Scope)
    requires Inv(l) && a < |l.attempts| && RecordedScope(l.startedScopes, a, scope)
    ensures l.attempts[a].scopeId == Some(scope.scopeId)
  {
    hide InvRest;
  }

  // The rows of a running request whose lease has expired.
  function Expired(l: Ledger, a: nat): Ledger
    requires ForeignKeys(l) && a < |l.attempts|
  {
    var k := l.attempts[a].candidate;
    l.(state := Uncertain, version := l.version + 1, attempts := l.attempts[a := l.attempts[a].(status := Uncertain)],
       candidates := l.candidates[k := l.candidates[k].(status := Uncertain)], outbox := l.outbox + [Snapshot(l.version + 1, Uncertain, None)])
  }

  lemma ExpiredRows(l: Ledger, a: nat, i: Incarnation, expired: int, maxDuration: int)
    requires ForeignKeys(l) && a < |l.attempts| && l.state == Running && l.attempts[a].status == Running && !l.attempts[a].stopped && Active(l, a, i)
    requires l.resultId == None && l.attempts[a].startedAt.Some?
    requires expired - l.attempts[a].heartbeatAt >= LEASE_MS && expired - l.attempts[a].startedAt.value < maxDuration
    ensures Expire(l, a, expired, maxDuration) == Tx(Expired(l, a), Done) && ForeignKeys(Expired(l, a))
  {
    hide HasStop;
  }

  lemma ResumedRows(l: Ledger, a: nat, i: Incarnation, scope: Scope, now: int, maxDuration: int)
    requires ForeignKeys(l) && a < |l.attempts| && l.state == Running && l.attempts[a].status == Running && Active(l, a, i)
    requires l.candidates[l.attempts[a].candidate].status == Running && l.resultId == None && ForeignKeys(Expired(l, a))
    requires ScopeOfIncarnation(scope, i) && RecordedScope(l.startedScopes, a, scope) && l.attempts[a].scopeId == Some(scope.scopeId)
    requires l.attempts[a].startedAt.Some? && now - l.attempts[a].startedAt.value < maxDuration
    ensures var t := Resume(Expired(l, a), a, i, scope, true, now, maxDuration);
            && t.answer == Done
            && t.rows == l.(version := l.version + 2, attempts := l.attempts[a := l.attempts[a].(heartbeatAt := now)],
                            outbox := l.outbox + [Snapshot(l.version + 1, Uncertain, None), Snapshot(l.version + 2, Running, None)])
  {
    hide RecordedScope, ScopeOfIncarnation;
    var m, k := Expired(l, a), l.attempts[a].candidate;
    var t := Resume(m, a, i, scope, true, now, maxDuration);
    assert t.rows.attempts == l.attempts[a := l.attempts[a].(heartbeatAt := now)];
    assert t.rows.candidates == l.candidates;
    assert t.rows.outbox == l.outbox + [Snapshot(l.version + 1, Uncertain, None), Snapshot(l.version + 2, Running, None)];
  }

  // Starting again within the lease, with the same scope, returns the very same permit and changes no other row; no other scope is
  // ever accepted for the attempt.
  lemma StartIsRepeatable(l: Ledger, a: nat, i: Incarnation, scope: Scope, now: int, maxDuration: int, other: Scope, later: int, maxLater: int)
    requires Inv(l) && ForeignKeys(l) && l.state == Claimed && Start(l, a, i, scope, true, now, maxDuration).answer.Permit?
    requires now <= later && later - now < LEASE_MS && later - now < maxLater
    ensures a < |l.attempts|
    ensures var t := Start(l, a, i, scope, true, now, maxDuration);
            && ForeignKeys(t.rows) && t.answer == Permit(StartPermit(a, l.attempts[a].incarnation, scope))
            && Start(t.rows, a, i, scope, true, later, maxLater) == Tx(t.rows.(permits := t.rows.permits + [t.answer.permit]), t.answer)
            && (other.scopeId != scope.scopeId ==> Start(t.rows, a, i, other, true, later, maxLater).answer.Refused?)
  {
    hide InvRest, Scopes, ScopeOfIncarnation;
    ActiveIsLast(l, a, i);
    RowFacts(l, a);
    StartedOnce(l, a, scope);
    StartedRows(l, a, i, scope, now);
  }

  lemma StartedOnce(l: Ledger, a: nat, scope: Scope)
    requires !HasStarted(l.startedScopes, a)
    ensures RecordedScope(l.startedScopes + [StartedScope(a, scope)], a, scope)
  {
    var started := l.startedScopes + [StartedScope(a, scope)];
    var n := |l.startedScopes|;
    assert started[n] == StartedScope(a, scope);
    assert forall j :: 0 <= j < n ==> started[j] == l.startedScopes[j] && l.startedScopes[j].attempt != a;
  }

  lemma StartedRows(l: Ledger, a: nat, i: Incarnation, scope: Scope, now: int)
    requires ForeignKeys(l) && a < |l.attempts| && Active(l, a, i)
    ensures var row := l.attempts[a].(status := Running, scopeId := Some(scope.scopeId), startedAt := Some(now), heartbeatAt := now);
            var m := MoveTogether(l.(startedScopes := l.startedScopes + [StartedScope(a, scope)]), a, row);
            && ForeignKeys(m) && Active(m, a, i) && m.state == Running && m.attempts[a] == row && m.startedScopes == l.startedScopes + [StartedScope(a, scope)]
  {}

  /* ---- a heartbeat holds the lease until the sweep ---- */

  // The newest attempt runs on as it did, though it may have been stopped.
  predicate RunsOn(before: seq<Attempt>, after: seq<Attempt>) {
    && |before| == |after| > 0
    && var x, y := before[|before| - 1], after[|after| - 1];
    y.heartbeatAt == x.heartbeatAt && y.startedAt == x.startedAt && y.status == x.status && (x.stopped ==> y.stopped)
  }

  // The transactions that write a lease.
  predicate OfLease(op: Op) { op.StartAttempt? || op.RenewAttempt? || op.ResumeAttempt? || op.ExpireAttempt? }

  lemma LeaseRunsOn(l: Ledger, op: Op, i: Incarnation, free: bool)
    requires Inv(l) && ForeignKeys(l) && l.state == Running && |l.attempts| > 0 && OfLease(op) && op.a < |l.attempts|
    requires Perform(l, op, i, free).rows.state == Running && !(op.RenewAttempt? && op.a + 1 == |l.attempts|)
    ensures RunsOn(l.attempts, Perform(l, op, i, free).rows.attempts)
  {
    hide Inv, Reserve, Retire, RejectUnstarted, Claim, Start, Renew, Resume, Expire, SubmitStop, SubmitClaimBoundStop, CloseOrphan,
         Cancel, Recover, BeginResult, EndResult, BeginPublish, OpenSendGate, StoreReceipt, Reconcile, Resolve, EndedBy, NeverBegan, Observes;
    match op
    case StartAttempt(a, scope, authorized, now, maxDuration) => StartDecides(l, a, i, scope, authorized, now, maxDuration);
    case RenewAttempt(a, scopeId, authorized, now, maxDuration) => RenewalDecides(l, a, i, scopeId, authorized, now, maxDuration);
    case ResumeAttempt(a, scope, authorized, now, maxDuration) => ResumptionDecides(l, a, i, scope, authorized, now, maxDuration);
    case ExpireAttempt(a, now, maxDuration) => ExpiryDecides(l, a, now, maxDuration);
  }

  lemma StopRunsOn(l: Ledger, op: Op, i: Incarnation, free: bool)
    requires Inv(l) && ForeignKeys(l) && l.state == Running && |l.attempts| > 0 && (op.StopAttempt? || op.StopUnstarted? || op.CloseSignedOff?) && op.a < |l.attempts|
    requires Perform(l, op, i, free).rows.state == Running
    ensures RunsOn(l.attempts, Perform(l, op, i, free).rows.attempts)
  {
    hide Inv, Reserve, Retire, RejectUnstarted, Claim, Start, Renew, Resume, Expire, SubmitStop, SubmitClaimBoundStop, CloseOrphan,
         Cancel, Recover, BeginResult, EndResult, BeginPublish, OpenSendGate, StoreReceipt, Reconcile, Resolve, EndedBy, NeverBegan, Observes;
    match op
    case StopAttempt(a, authorized, o) => StopDecides(l, a, authorized, o);
    case StopUnstarted(a, authorized, reason, digest, scopedEvidence, timely) => ClaimBoundStopDecides(l, a, authorized, reason, digest, scopedEvidence, timely);
    case CloseSignedOff(a) => OrphanDecides(l, a, i);
  }

  lemma IntakeRunsOn(l: Ledger, op: Op, i: Incarnation, free: bool)
    requires Inv(l) && ForeignKeys(l) && l.state == Running && |l.attempts| > 0
    requires op.PrepareSources? || op.ReserveSlot? || op.RetireExpired? || op.RejectRequest? || op.ClaimAttempt?
    ensures RunsOn(l.attempts, Perform(l, op, i, free).rows.attempts)
  {
    hide Inv, Reserve, Retire, RejectUnstarted, Claim, Start, Renew, Resume, Expire, SubmitStop, SubmitClaimBoundStop, CloseOrphan,
         Cancel, Recover, BeginResult, EndResult, BeginPublish, OpenSendGate, StoreReceipt, Reconcile, Resolve, EndedBy, NeverBegan, Observes;
    match op
    case PrepareSources(_) =>
    case ReserveSlot(route, incarnation, eligible, now) => ReservationDecides(l, route, incarnation, i.slot, free, eligible && !i.signedOff, now);
    case RetireExpired(jobIdle, now) => RetirementDecides(l, jobIdle, now);
    case RejectRequest(reason, jobIdle) => RejectionDecides(l, reason, jobIdle);
    case ClaimAttempt(incarnation, claimKey, authorized, eligible, now) => ClaimDecides(l, incarnation, i, claimKey, free, authorized, eligible, now);
  }

  lemma LifecycleRunsOn(l: Ledger, op: Op, i: Incarnation, free: bool)
    requires Inv(l) && ForeignKeys(l) && l.state == Running && |l.attempts| > 0 && Lifecycle(op)
    requires Perform(l, op, i, free).rows.state == Running && !(op.RenewAttempt? && op.a + 1 == |l.attempts|)
    ensures RunsOn(l.attempts, Perform(l, op, i, free).rows.attempts)
  {
    hide Inv, Perform;
    if op.PrepareSources? || op.ReserveSlot? || op.RetireExpired? || op.RejectRequest? || op.ClaimAttempt? { IntakeRunsOn(l, op, i, free); }
    else if op.a >= |l.attempts| { NoAttempt(l, op, i, free); }
    else if OfLease(op) { LeaseRunsOn(l, op, i, free); }
    else { StopRunsOn(l, op, i, free); }
  }

  // A transaction on an attempt the request does not have changes nothing.
  lemma NoAttempt(l: Ledger, op: Op, i: Incarnation, free: bool)
    requires ForeignKeys(l)
    requires op.StartAttempt? || op.RenewAttempt? || op.ResumeAttempt? || op.ExpireAttempt? || op.StopAttempt? || op.StopUnstarted? || op.CloseSignedOff? || op.RecoverRequest?
    requires op.a >= |l.attempts|
    ensures Perform(l, op, i, free).rows == l
  {
    hide AcceptScopedStop, AcceptRecoveryStop, MoveTogether;
  }

  lemma OutcomeRunsOn(l: Ledger, op: Op, i: Incarnation, free: bool)
    requires Inv(l) && ForeignKeys(l) && l.state == Running && |l.attempts| > 0 && !Lifecycle(op) && !OfPublication(op)
    requires Perform(l, op, i, free).rows.state == Running
    ensures RunsOn(l.attempts, Perform(l, op, i, free).rows.attempts)
  {
    hide Inv, Prepare, Reserve, Retire, RejectUnstarted, Claim, Start, Renew, Resume, Expire, SubmitStop, SubmitClaimBoundStop, CloseOrphan,
         Cancel, Recover, BeginResult, EndResult, BeginPublish, OpenSendGate, StoreReceipt, Reconcile, Resolve, Recovered, ProvesStop;
    match op
    case CancelRequest(key, expectedVersion, authorized) => CancellationDecides(l, key, expectedVersion, authorized);
    case RecoverRequest(a, key, action, expectedVersion, e, mode, authorized, retryAllowed) =>
      if a < |l.attempts| { RecoveryDecides(l, a, key, action, expectedVersion, e, mode, authorized, retryAllowed); } else { NoAttempt(l, op, i, free); }
    case BeginCompletion(a, submitted, authorized, intact, failure) => BeginCalm(l, a, submitted, authorized, intact, failure);
    case FailCompletion(_, _) =>
    case EndCompletion(s, authorized, publishable) => EndEnds(l, s, authorized, publishable);
  }

  lemma PublicationRunsOn(l: Ledger, op: Op, i: Incarnation, free: bool)
    requires ForeignKeys(l) && OfPublication(op)
    ensures Perform(l, op, i, free).rows.attempts == l.attempts
  {
    hide Perform;
    if OfPublisher(op) { PublisherRunsOn(l, op, i, free); } else { SettlingRunsOn(l, op, i, free); }
  }

  lemma PublisherRunsOn(l: Ledger, op: Op, i: Incarnation, free: bool)
    requires ForeignKeys(l) && OfPublisher(op)
    ensures Perform(l, op, i, free).rows.attempts == l.attempts
  {
    hide Prepare, Reserve, Retire, RejectUnstarted, Claim, Start, Renew, Resume, Expire, SubmitStop, SubmitClaimBoundStop, CloseOrphan,
         Cancel, Recover, BeginResult, EndResult, BeginPublish, OpenSendGate, CallPort, ReturnPort, StoreReceipt, Crash, Reconcile, Resolve, FailPending;
    match op
    case SendPublication(authorized) => SendCalm(l, authorized);
    case StorePublication => SendCalm(l, false);
    case PortCalled => PortCalm(l, SaysUnknown, false);
    case PortReturned(status, issued) => PortCalm(l, status, issued);
    case PublisherDied => PortCalm(l, SaysUnknown, false);
  }

  lemma SettlingRunsOn(l: Ledger, op: Op, i: Incarnation, free: bool)
    requires ForeignKeys(l) && (op.BeginPublication? || op.ReconcilePublication? || op.ResolvePublication?)
    ensures Perform(l, op, i, free).rows.attempts == l.attempts
  {
    hide Prepare, Reserve, Retire, RejectUnstarted, Claim, Start, Renew, Resume, Expire, SubmitStop, SubmitClaimBoundStop, CloseOrphan,
         Cancel, Recover, BeginResult, EndResult, BeginPublish, OpenSendGate, CallPort, ReturnPort, StoreReceipt, Crash, Reconcile, Resolve, FailPending;
    match op
    case BeginPublication(a, artifact, head, authorized, publishable, seen) => PublishCalm(l, a, artifact, head, authorized, publishable, seen, 0);
    case ReconcilePublication(p, seen) => PublishCalm(l, 0, "", "", false, false, seen, p);
    case ResolvePublication(p, key, authorized, attestation) => ResolveCalm(l, p, key, authorized, attestation);
  }

  lemma PerformRunsOn(l: Ledger, op: Op, i: Incarnation, free: bool)
    requires Inv(l) && ForeignKeys(l) && l.state == Running && |l.attempts| > 0
    requires Perform(l, op, i, free).rows.state == Running && !(op.RenewAttempt? && op.a + 1 == |l.attempts|)
    ensures RunsOn(l.attempts, Perform(l, op, i, free).rows.attempts)
  {
    hide Inv, Perform;
    if Lifecycle(op) { LifecycleRunsOn(l, op, i, free); }
    else if OfPublication(op) { PublicationRunsOn(l, op, i, free); }
    else { OutcomeRunsOn(l, op, i, free); }
  }

  lemma BeginCalm(l: Ledger, a: nat, submitted: Report, authorized: bool, intact: bool, failure: Option<string>)
    requires ForeignKeys(l)
    ensures BeginResult(l, a, submitted, authorized, intact, failure).rows.attempts == l.attempts
  {
    hide HasStop, AlreadyDecided;
    if |l.results| > 0 { DecidedCalm(l, a, submitted); }
  }

  lemma DecidedCalm(l: Ledger, a: nat, submitted: Report)
    requires |l.results| > 0
    ensures AlreadyDecided(l, a, submitted).rows.attempts == l.attempts
  {}

  // The last transaction of a running request's result ends it, or changes nothing.
  lemma EndEnds(l: Ledger, s: Submission, authorized: bool, publishable: bool)
    requires Inv(l) && ForeignKeys(l) && l.state == Running
    ensures var m := EndResult(l, s, authorized, publishable).rows; m == l || Terminal(m.state)
  {
    hide Inv, FinishResult, Unresolved;
    NoResults(l);
    if s in l.pending && s.attempt < |l.attempts| && Current(l, s.attempt) && !Unresolved(l.publications) {
      PendingFacts(l, s);
      RunningSucceeds(l, s, publishable);
    }
  }

  lemma PublishCalm(l: Ledger, a: nat, artifact: string, head: string, authorized: bool, publishable: bool, seen: bool, op: nat)
    requires ForeignKeys(l)
    ensures BeginPublish(l, a, artifact, head, authorized, publishable, seen).rows.attempts == l.attempts
    ensures Reconcile(l, op, seen).rows.attempts == l.attempts
  {}

  lemma SendCalm(l: Ledger, authorized: bool)
    requires ForeignKeys(l)
    ensures OpenSendGate(l, authorized).rows.attempts == l.attempts && StoreReceipt(l).rows.attempts == l.attempts
  {}

  lemma PortCalm(l: Ledger, status: ReceiptStatus, issued: bool)
    ensures CallPort(l).rows.attempts == l.attempts && ReturnPort(l, status, issued).rows.attempts == l.attempts && Crash(l).rows.attempts == l.attempts
  {}

  lemma ResolveCalm(l: Ledger, op: nat, key: string, authorized: bool, attestation: Attestation)
    ensures Resolve(l, op, key, authorized, attestation).rows.attempts == l.attempts
  {}

  // The request runs, in this its newest attempt.
  predicate Runs(s: State, id: nat, a: nat) { id in s.ledgers && s.ledgers[id].state == Running && a + 1 == |s.ledgers[id].attempts| }

  predicate Renews(step: Step, id: nat, a: nat) { step.Act? && step.id == id && step.op.RenewAttempt? && step.op.a == a }

  // Every one of these steps leaves the attempt running, and none renews it.
  predicate KeepsRunning(s: State, steps: seq<Step>, id: nat, a: nat) {
    Runs(Run(s, steps), id, a) && (|steps| > 0 ==> KeepsRunning(s, steps[..|steps| - 1], id, a) && !Renews(steps[|steps| - 1], id, a))
  }

  lemma NextRunsOn(s: State, step: Step, id: nat, a: nat)
    requires Consistent(s) && Runs(s, id, a) && Runs(Next(s, step), id, a) && !Renews(step, id, a)
    ensures RunsOn(s.ledgers[id].attempts, Next(s, step).ledgers[id].attempts)
  {
    hide Inv, Kept, Perform, SlotFree, KeySpent, Exclusive, KeysUnique, Bound, OneIncarnation, ForeignKeys;
    var l := s.ledgers[id];
    SoundKept(l);
    if step.Act? && step.id == id {
      var i := Speaker(s, l, step.op);
      if i.Some? && Next(s, step) != s { PerformRunsOn(l, step.op, i.value, SlotFree(s, i.value.slot)); }
    }
  }

  lemma {:induction false} RunRunsOn(s: State, steps: seq<Step>, id: nat, a: nat)
    requires Consistent(s) && KeepsRunning(s, steps, id, a)
    ensures Runs(s, id, a) && RunsOn(s.ledgers[id].attempts, Run(s, steps).ledgers[id].attempts)
  {
    hide Next, Consistent;
    if |steps| > 0 {
      var shorter := steps[..|steps| - 1];
      RunRunsOn(s, shorter, id, a);
      RunConsistent(s, shorter);
      NextRunsOn(Run(s, shorter), steps[|steps| - 1], id, a);
    }
  }

  // The attempt's heartbeat is written: its first start is permitted, a renewal of it keeps the lease, or it is resumed.
  predicate Beats(s: State, id: nat, op: Op) {
    && id in s.ledgers && ForeignKeys(s.ledgers[id])
    && match op
       case StartAttempt(a, _, _, _, _) => a < |s.ledgers[id].attempts| && s.ledgers[id].state == Claimed && AnswerOf(s, Act(id, op)).Permit?
       case RenewAttempt(a, _, _, _, _) => a < |s.ledgers[id].attempts| && s.ledgers[id].state == Running && AnswerOf(s, Act(id, op)) == Lease(false)
       case ResumeAttempt(a, _, _, _, _) => a < |s.ledgers[id].attempts| && AnswerOf(s, Act(id, op)) == Done
       case _ => false
  }

  lemma BeatIsWritten(s: State, id: nat, op: Op)
    requires Consistent(s) && Beats(s, id, op)
    ensures Runs(Next(s, Act(id, op)), id, op.a) && Next(s, Act(id, op)).ledgers[id].attempts[op.a].heartbeatAt == op.now
  {
    hide Inv, Kept, SlotFree, KeySpent, Exclusive, KeysUnique, Bound, OneIncarnation, ForeignKeys, Start, Renew, Resume, RecordedScope, ScopeOfIncarnation;
    var l := s.ledgers[id];
    SoundKept(l);
    if Terminal(l.state) { EndedHolds(l, op, Speaker(s, l, op).value); }
    var i := Speaker(s, l, op).value;
    match op
    case StartAttempt(a, scope, authorized, now, maxDuration) => StartDecides(l, a, i, scope, authorized, now, maxDuration);
    case RenewAttempt(a, scopeId, authorized, now, maxDuration) => RenewalDecides(l, a, i, scopeId, authorized, now, maxDuration);
    case ResumeAttempt(a, scope, authorized, now, maxDuration) => ResumptionDecides(l, a, i, scope, authorized, now, maxDuration);
  }

  lemma EndedHolds(l: Ledger, op: Op, i: Incarnation)
    requires ForeignKeys(l) && Terminal(l.state) && op.ResumeAttempt?
    ensures Resume(l, op.a, i, op.scope, op.authorized, op.now, op.maxDuration).answer != Done
  {
    hide Active, RecordedScope, ScopeOfIncarnation, MoveTogether;
  }

  // A heartbeat written at some time holds the lease for LEASE_MS from then. Behind any steps that leave the attempt running and do
  // not renew it, the sweep spares one that has stopped, revokes one behind its maximum duration, and makes any other uncertain
  // exactly when LEASE_MS have passed since; until then it changes nothing.
  lemma HeartbeatHoldsTheLease(s: State, beat: Op, after: seq<Step>, id: nat, now: int, maxDuration: int)
    requires Consistent(s) && Beats(s, id, beat) && KeepsRunning(Next(s, Act(id, beat)), after, id, beat.a)
    ensures var r := Run(Next(s, Act(id, beat)), after); var t := Next(r, Act(id, ExpireAttempt(beat.a, now, maxDuration)));
            && Runs(r, id, beat.a) && id in t.ledgers && beat.a < |t.ledgers[id].attempts|
            && var l, m := r.ledgers[id], t.ledgers[id];
            && l.attempts[beat.a].startedAt.Some?
            && m.state == (if l.attempts[beat.a].stopped then Running
                           else if now - l.attempts[beat.a].startedAt.value >= maxDuration then CancelRequested
                           else if now - beat.now >= LEASE_MS then Uncertain else Running)
            && m.attempts[beat.a].status == m.state
            && (m.state == CancelRequested ==> m.attempts[beat.a].revoked)
            && (m.state == Running ==> m == l)
  {
    hide Inv, Kept, SlotFree, KeySpent, Consistent, Next, Expire;
    BeatIsWritten(s, id, beat);
    NextConsistent(s, Act(id, beat));
    var b := Next(s, Act(id, beat));
    RunRunsOn(b, after, id, beat.a);
    RunConsistent(b, after);
    Sweeps(Run(b, after), id, beat.a, now, maxDuration);
  }

  lemma Sweeps(s: State, id: nat, a: nat, now: int, maxDuration: int)
    requires Consistent(s) && Runs(s, id, a)
    ensures var t := Next(s, Act(id, ExpireAttempt(a, now, maxDuration))); var l := s.ledgers[id];
            && id in t.ledgers && a < |t.ledgers[id].attempts| && l.attempts[a].startedAt.Some?
            && var m := t.ledgers[id];
            && m.state == (if l.attempts[a].stopped then Running
                           else if now - l.attempts[a].startedAt.value >= maxDuration then CancelRequested
                           else if now - l.attempts[a].heartbeatAt >= LEASE_MS then Uncertain else Running)
            && m.attempts[a].status == m.state
            && (m.state == CancelRequested ==> m.attempts[a].revoked)
            && (m.state == Running ==> m == l)
  {
    hide Inv, Kept, SlotFree, KeySpent, Exclusive, KeysUnique, Bound, OneIncarnation, Expire;
    var l := s.ledgers[id];
    SoundKept(l);
    CurrentRow(l);
    RowFacts(l, a);
    ExpiryDecides(l, a, now, maxDuration);
  }

  /* ---- a reservation is held until its deadline ---- */

  // A candidate reserved at some time for a request that was never claimed keeps its slot for LEASE_MS from then: behind any steps
  // that leave it reserved, unclaimed, retiring sets the request back to wait, its slot free, exactly when its job is idle and
  // LEASE_MS have passed.
  lemma ReservationHoldsUntilDeadline(s: State, reserve: Op, after: seq<Step>, id: nat, jobIdle: bool, now: int)
    requires Consistent(s) && id in s.ledgers && reserve.ReserveSlot? && AnswerOf(s, Act(id, reserve)) == Done
    requires var r := Run(Next(s, Act(id, reserve)), after);
             id in r.ledgers && r.ledgers[id].state == Reserved && !r.ledgers[id].firstClaimed && r.ledgers[id].generation == s.ledgers[id].generation + 1
    ensures var r := Run(Next(s, Act(id, reserve)), after); var t := Next(r, Act(id, RetireExpired(jobIdle, now)));
            && id in t.ledgers
            && var l, m, k := r.ledgers[id], t.ledgers[id], s.ledgers[id].generation;
            && k < |m.reservations|
            && (m.state == Waiting <==> jobIdle && now - reserve.now >= LEASE_MS)
            && (m.state == Waiting <==> m.reservations[k].released)
            && (m.state != Waiting ==> m == l)
  {
    hide Inv, Sound, Kept, SlotFree, KeySpent, Consistent, Next, Reserve, Retire;
    var b := Next(s, Act(id, reserve));
    DeadlineIsSet(s, id, reserve);
    NextConsistent(s, Act(id, reserve));
    Evolution(b, after, id);
    RunConsistent(b, after);
    DeadlineStays(b.ledgers[id], Run(b, after).ledgers[id], s.ledgers[id].generation);
    Retires(Run(b, after), id, jobIdle, now);
  }

  lemma DeadlineIsSet(s: State, id: nat, op: Op)
    requires Consistent(s) && id in s.ledgers && op.ReserveSlot? && AnswerOf(s, Act(id, op)) == Done
    ensures id in Next(s, Act(id, op)).ledgers
    ensures var m, k := Next(s, Act(id, op)).ledgers[id], s.ledgers[id].generation; k < |m.candidates| && m.candidates[k].deadline == op.now + LEASE_MS
  {
    hide Inv, Kept, SlotFree, KeySpent, Exclusive, KeysUnique, Bound, OneIncarnation, Reserve, RetryAuthority;
    var l := s.ledgers[id];
    SoundKept(l);
    var i := Speaker(s, l, op).value;
    if Terminal(l.state) { EndedWaits(l, op, i, SlotFree(s, i.slot)); }
    ReservationDecides(l, op.route, op.incarnation, i.slot, SlotFree(s, i.slot), op.eligible && !i.signedOff, op.now);
    Waits(l);
  }

  lemma EndedWaits(l: Ledger, op: Op, i: Incarnation, free: bool)
    requires ForeignKeys(l) && Terminal(l.state) && op.ReserveSlot?
    ensures Reserve(l, op.route, op.incarnation, i.slot, free, op.eligible && !i.signedOff, op.now).answer != Done
  {}

  lemma Waits(l: Ledger)
    requires Inv(l)
    ensures l.generation == |l.candidates| == |l.reservations|
  {}

  lemma DeadlineStays(l: Ledger, m: Ledger, k: nat)
    requires Evolves(l, m) && k < |l.candidates|
    ensures k < |m.candidates| && m.candidates[k].deadline == l.candidates[k].deadline
  {
    hide AttemptsEvolve, ReservationsEvolve, PublicationsEvolve, PermitsEvolve, HistoriesGrow;
    assert CandidateEvolves(l.candidates[k], m.candidates[k]);
  }

  lemma Retires(s: State, id: nat, jobIdle: bool, now: int)
    requires Consistent(s) && id in s.ledgers && s.ledgers[id].state == Reserved && !s.ledgers[id].firstClaimed
    ensures var t := Next(s, Act(id, RetireExpired(jobIdle, now))); var l := s.ledgers[id];
            && id in t.ledgers && l.generation == |l.candidates| > 0
            && var m, k := t.ledgers[id], |l.candidates| - 1;
            && k < |m.reservations|
            && (m.state == Waiting <==> jobIdle && now >= l.candidates[k].deadline)
            && (m.state == Waiting <==> m.reservations[k].released)
            && (m.state != Waiting ==> m == l)
  {
    hide Inv, Kept, SlotFree, KeySpent, Exclusive, KeysUnique, Bound, OneIncarnation, Retire;
    var l := s.ledgers[id];
    SoundKept(l);
    Waits(l);
    Unclaimed(l);
    OpenIsHeld(l);
    RetirementDecides(l, jobIdle, now);
  }
}
