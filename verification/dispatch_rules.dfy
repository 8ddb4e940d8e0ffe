// What each transaction of the dispatch service does to the rows of one request.
//
// Authority, token and hash checks appear as boolean arguments: a rule says what
// the rows become for either answer. A refused transaction leaves the rows as they were.
module DispatchRules {
  import opened Options
  import opened DispatchRows

  /* ---- intake and selection ---- */

  function Submitted(): Ledger {
    Ledger(Waiting, 1, 0, false, false, None, None, [], [], [], [], [], [Snapshot(1, Waiting, None)],
           [], [], [], [], [], [], map[], map[], map[], [], [], None, multiset{})
  }

  // `valid` says whether authorization and repository still hold when the sources are in.
  function Prepare(l: Ledger, valid: bool): Tx {
    if l.sourcesReady || l.firstClaimed || l.state !in {Waiting, Reserved} then Tx(l, Skipped)
    else if !valid then Refuse(l, Forbidden)
    else Tx(l.(sourcesReady := true), Done)
  }

  // A retry authorization that is recorded, not consumed, and whose request has nothing open.
  predicate RetryAuthority(l: Ledger) {
    && l.retryAuthorization.Some?
    && l.retryAuthorization.value < |l.authorizations|
    && (var g := l.authorizations[l.retryAuthorization.value].generation; g == l.generation || g + 1 == l.generation)
    && (forall i :: 0 <= i < |l.consumed| ==> l.consumed[i].authorization != l.retryAuthorization.value)
    && !Unresolved(l.publications)
    && (forall a :: 0 <= a < |l.attempts| ==>
          Terminal(l.attempts[a].status) && l.attempts[a].stopped && l.attempts[a].revoked && HasStop(l.stops, a))
  }

  function Reserve(l: Ledger, route: Route, incarnation: nat, slot: nat, slotFree: bool, eligible: bool, now: int): Tx
    requires ForeignKeys(l)
  {
    if l.state != Waiting || !l.sourcesReady then Tx(l, Skipped)
    else if l.firstClaimed && !RetryAuthority(l) then Refuse(l, Conflict)
    else if !slotFree || !eligible then Tx(l, Skipped)
    else
      var c := Candidate(route, if route == Host then Some(incarnation) else None, slot, Reserved, false, now + LEASE_MS);
      var l := l.(candidates := l.candidates + [c], reservations := l.reservations + [Reservation(slot, false)],
                  generation := l.generation + 1);
      Tx(Transition(l, Reserved, None), Done)
  }

  function Retire(l: Ledger, jobIdle: bool, now: int): Tx
    requires ForeignKeys(l)
  {
    if l.state != Reserved || l.firstClaimed then Tx(l, Skipped)
    else
      var open := OpenCandidate(l);
      if open.None? then Tx(l, Skipped)
      else
        var c := l.candidates[open.value];
        if c.status != Reserved || now < c.deadline || c.claimed || !jobIdle then Tx(l, Skipped)
        else Tx(Transition(RetireOpen(l), Waiting, None), Done)
  }

  function CouldNotStart(reason: string): Report { Report(Failed, reason, "Execution could not start: " + reason + ".", None) }

  function RejectUnstarted(l: Ledger, reason: string, jobIdle: bool): Tx
    requires ForeignKeys(l)
  {
    if l.state !in {Waiting, Reserved} then Tx(l, Skipped)
    else if l.firstClaimed && !RetryAuthority(l) then Refuse(l, Conflict)
    else
      var open := OpenCandidate(l);
      if open.Some? && (l.candidates[open.value].claimed || !jobIdle) then Tx(l, Skipped)
      else
        var l := RetireOpen(l).(results := l.results + [Result(None, CouldNotStart(reason))]);
        Tx(Transition(l, Failed, Some(|l.results| - 1)), Done)
  }

  /* ---- attempts ---- */

  // `free` tells whether the claiming incarnation's slot carries no open reservation of another candidate.
  function Claim(l: Ledger, incarnation: nat, i: Incarnation, claimKey: string, free: bool, authorized: bool, eligible: bool, now: int): Tx
    requires ForeignKeys(l)
  {
    if l.state != Reserved || (l.firstClaimed && !RetryAuthority(l)) then Tx(l, Skipped)
    else
      var current := CurrentCandidate(l);
      if current.None? then Tx(l, Skipped)
      else
        var k := current.value;
        var c := l.candidates[k];
        if c.status != Reserved || c.claimed then Tx(l, Skipped)
        else if i.signedOff then Refuse(l, Forbidden)
        else if c.route == Host && (c.incarnation != Some(incarnation) || c.slot != i.slot) then Tx(l, Skipped)
        else if !authorized then Refuse(l, Forbidden)
        else if !eligible || (c.slot != i.slot && !free) then Tx(l, Skipped)
        else
          var a := |l.attempts|;
          var row := Attempt(k, incarnation, claimKey, Claimed, None, None, now, false, false);
          var l := l.(reservations := l.reservations[k := l.reservations[k].(slot := i.slot)],
                      candidates := l.candidates[k := c.(slot := i.slot, incarnation := Some(incarnation), status := Claimed, claimed := true)],
                      attempts := l.attempts + [row],
                      firstClaimed := true,
                      consumed := if l.retryAuthorization.Some? then l.consumed + [RetryConsumed(l.retryAuthorization.value, a)] else l.consumed,
                      retryAuthorization := None);
          Tx(Transition(l, Claimed, None), Done)
  }

  // The attempt still carries execution rights.
  predicate Active(l: Ledger, a: nat, i: Incarnation)
    requires ForeignKeys(l) && a < |l.attempts|
  {
    var row := l.attempts[a];
    var c := l.candidates[row.candidate];
    && Current(l, a) && c.incarnation == Some(row.incarnation) && i.slot == c.slot
    && !row.revoked && !i.signedOff && Executing(c.status)
  }

  predicate ScopeOfIncarnation(scope: Scope, i: Incarnation) {
    && scope.scopeId != "" && |scope.scopeId| <= MAX_SCOPE_ID
    && scope.bootId == i.bootId && scope.imageDigest == i.imageDigest && scope.profileSha256 == i.profileSha256
  }

  function Start(l: Ledger, a: nat, i: Incarnation, scope: Scope, authorized: bool, now: int, maxDuration: int): Tx
    requires ForeignKeys(l)
  {
    if a >= |l.attempts| || !ScopeOfIncarnation(scope, i) then Refuse(l, Forbidden)
    else
      var row := l.attempts[a];
      if row.scopeId.Some? && row.scopeId.value != scope.scopeId then Refuse(l, Conflict)
      else if !Active(l, a, i) || l.state !in {Claimed, Running} || row.status !in {Claimed, Running} then Refuse(l, Conflict)
      else if now - row.heartbeatAt >= LEASE_MS then Refuse(l, Conflict)
      else if !authorized then Refuse(l, Forbidden)
      else if row.startedAt.Some? && now - row.startedAt.value >= maxDuration then Refuse(l, Conflict)
      else if row.status == Running && !RecordedScope(l.startedScopes, a, scope) then Refuse(l, Conflict)
      else
        var l := if row.status == Running then l else
                   var moved := l.(startedScopes := l.startedScopes + [StartedScope(a, scope)]);
                   MoveTogether(moved, a, row.(status := Running, scopeId := Some(scope.scopeId), startedAt := Some(now), heartbeatAt := now));
        var permit := StartPermit(a, row.incarnation, scope);
        Tx(l.(permits := l.permits + [permit]), Permit(permit))
  }

  function LeaseExpired(l: Ledger, a: nat): Ledger
    requires ForeignKeys(l) && a < |l.attempts|
  {
    MoveTogether(l, a, l.attempts[a].(status := Uncertain))
  }

  function CancelForStop(l: Ledger, a: nat): Ledger
    requires ForeignKeys(l) && a < |l.attempts|
  {
    MoveTogether(l, a, l.attempts[a].(status := CancelRequested, revoked := true))
  }

  function Renew(l: Ledger, a: nat, i: Incarnation, scopeId: Option<string>, authorized: bool, now: int, maxDuration: int): Tx
    requires ForeignKeys(l)
  {
    if a >= |l.attempts| then Refuse(l, Forbidden)
    else if !Active(l, a, i) || !Executing(l.state) || !Executing(l.attempts[a].status) then Tx(l, Lease(true))
    else if l.attempts[a].scopeId != scopeId then Refuse(l, Forbidden)
    else
      var row := l.attempts[a];
      var l := if row.status != Uncertain && now - row.heartbeatAt >= LEASE_MS then LeaseExpired(l, a) else l;
      if !authorized || (row.startedAt.Some? && now - row.startedAt.value >= maxDuration) then Tx(CancelForStop(l, a), Lease(true))
      else Tx(SetAttempt(l, a, l.attempts[a].(heartbeatAt := now)), Lease(l.attempts[a].status == Uncertain))
  }

  function Resume(l: Ledger, a: nat, i: Incarnation, scope: Scope, authorized: bool, now: int, maxDuration: int): Tx
    requires ForeignKeys(l)
  {
    if a >= |l.attempts| || !ScopeOfIncarnation(scope, i) then Refuse(l, Forbidden)
    else
      var row := l.attempts[a];
      if row.scopeId.Some? && row.scopeId.value != scope.scopeId then Refuse(l, Conflict)
      else if !Active(l, a, i) || l.state != Uncertain || row.status != Uncertain || row.startedAt.None? || row.scopeId.None? then Refuse(l, Conflict)
      else if !authorized then Refuse(l, Forbidden)
      else if now - row.startedAt.value >= maxDuration || !RecordedScope(l.startedScopes, a, scope) then Refuse(l, Conflict)
      else Tx(MoveTogether(l, a, row.(status := Running, heartbeatAt := now)), Done)
  }

  function Expire(l: Ledger, a: nat, now: int, maxDuration: int): Tx
    requires ForeignKeys(l)
  {
    if a >= |l.attempts| then Refuse(l, Forbidden)
    else
      var row := l.attempts[a];
      if !Current(l, a) || !Executing(l.state) || !Executing(row.status) then Tx(l, Skipped)
      else if row.stopped && HasStop(l.stops, a) then Tx(l, Skipped)
      else if row.startedAt.Some? && now - row.startedAt.value >= maxDuration then Tx(CancelForStop(l, a), Skipped)
      else if row.status == Uncertain || now - row.heartbeatAt < LEASE_MS then Tx(l, Skipped)
      else Tx(LeaseExpired(l, a), Done)
  }

  /* ---- results ---- */

  function InsertResult(l: Ledger, attempt: Option<nat>, report: Report): Option<(Ledger, nat)> {
    if |l.results| > 0 then (if l.results[0].report == report then Some((l, 0)) else None)
    else Some((l.(results := [Result(attempt, report)]), 0))
  }

  function Terminalize(l: Ledger, a: nat, outcome: Status): Option<Ledger>
    requires ForeignKeys(l) && a < |l.attempts|
  {
    if !l.attempts[a].stopped || Unresolved(l.publications) then None
    else Some(CloseCandidate(SetAttempt(l, a, l.attempts[a].(status := outcome, revoked := true)), l.attempts[a].candidate, Finished))
  }

  function FinishResult(l: Ledger, a: nat, report: Report, submitted: Report): Tx
    requires ForeignKeys(l) && a < |l.attempts|
  {
    var inserted := InsertResult(l, Some(a), report);
    if inserted.None? then Refuse(l, IdempotencyConflict)
    else
      var id := inserted.value.1;
      var ended := Terminalize(Transition(inserted.value.0, report.outcome, Some(id)), a, report.outcome);
      if ended.None? then Refuse(l, Conflict)
      else Tx(ended.value.(accepted := l.accepted + [ResultAccepted(a, id, submitted)]), Receipt(true, id, report))
  }

  const StoppedCancellation := Report(Cancelled, "Cancelled execution has stopped", "The bound supervisor confirmed termination after cancellation.", None)
  const CancelledByRequester := Report(Cancelled, "Cancelled by requester", "The requester cancelled this execution.", None)

  // An accepted stop finishes an ordinary cancellation; the answer stays the stop's receipt.
  function FinishStoppedCancellation(l: Ledger, a: nat, answer: Answer): Tx
    requires ForeignKeys(l) && a < |l.attempts|
  {
    if l.state != CancelRequested || Unresolved(l.publications) || |l.results| > 0 then Tx(l, answer)
    else
      var done := FinishResult(l, a, StoppedCancellation, StoppedCancellation);
      if done.answer.Refused? then done else Tx(done.rows, answer)
  }

  /* ---- stop evidence ---- */

  // A scoped runtime observation: what the staged bytes say and whether they check out.
  datatype Observation = Observation(scope: Scope, digest: string, created: bool, timely: bool, authentic: bool)

  function FindStop(stops: seq<StopAccepted>, a: nat): (i: Option<nat>)
    ensures i.Some? ==> i.value < |stops| && stops[i.value].attempt == a
    ensures i.None? ==> forall j :: 0 <= j < |stops| ==> stops[j].attempt != a
  {
    if |stops| == 0 then None
    else if stops[|stops| - 1].attempt == a then Some(|stops| - 1)
    else FindStop(stops[..|stops| - 1], a)
  }

  // Accepts the evidence, or answers with the receipt it was already given.
  function RecordStop(l: Ledger, a: nat, kind: StopKind, digest: string): (t: Tx)
    requires ForeignKeys(l) && a < |l.attempts|
    ensures ForeignKeys(t.rows) && |t.rows.attempts| == |l.attempts|
  {
    var earlier := FindStop(l.stops, a);
    if earlier.Some? then (if l.stops[earlier.value] == StopAccepted(a, kind, digest) then Tx(l, StopReceipt(earlier.value)) else Refuse(l, Conflict))
    else Tx(AcceptStop(l, a, kind, digest), StopReceipt(|l.stops|))
  }

  function AcceptScopedStop(l: Ledger, a: nat, o: Observation): (t: Tx)
    requires ForeignKeys(l) && a < |l.attempts|
    ensures ForeignKeys(t.rows) && |t.rows.attempts| == |l.attempts|
  {
    var row := l.attempts[a];
    if !o.authentic || !o.timely then Refuse(l, Conflict)
    else if row.scopeId.None? && (row.startedAt.Some? || HasStarted(l.startedScopes, a) || !l.candidates[row.candidate].claimed || !o.created || Unresolved(l.publications)) then Refuse(l, Conflict)
    else if row.scopeId.Some? && (row.startedAt.None? || row.scopeId.value != o.scope.scopeId || !RecordedScope(l.startedScopes, a, o.scope)) then Refuse(l, Conflict)
    else RecordStop(l, a, ContainerStopped, o.digest)
  }

  function SubmitStop(l: Ledger, a: nat, authorized: bool, o: Observation): Tx
    requires ForeignKeys(l)
  {
    if a >= |l.attempts| || !authorized then Refuse(l, Forbidden)
    else
      var stop := AcceptScopedStop(l, a, o);
      if stop.answer.Refused? then Refuse(l, stop.answer.error)
      else
        var done := FinishStoppedCancellation(stop.rows, a, stop.answer);
        if done.answer.Refused? then Refuse(l, done.answer.error) else done
  }

  function ClaimBoundFailure(reason: string): Report {
    Report(Failed, reason, "The attempt was refused before any runtime scope was created: " + reason
                           + ". No container was created, so there is no output to report.", None)
  }

  // The exact signature of an attempt that was claimed but never given a scope.
  predicate UnstartedSignature(l: Ledger, a: nat)
    requires ForeignKeys(l) && a < |l.attempts|
  {
    var row := l.attempts[a];
    && row.scopeId.None? && row.startedAt.None? && !row.stopped && Unstarted(l.state) && Unstarted(row.status)
    && Current(l, a) && l.candidates[row.candidate].claimed
    && !HasStarted(l.startedScopes, a) && |l.results| == 0 && !Unresolved(l.publications)
  }

  // The stop of an attempt without a scope, and the end of its request, in one transaction.
  function CloseUnstarted(l: Ledger, a: nat, kind: StopKind, digest: string, failure: Report, receipt: Answer): Tx
    requires ForeignKeys(l) && a < |l.attempts|
  {
    var stopped := AcceptStop(l, a, kind, digest);
    var done := if l.state == CancelRequested then FinishStoppedCancellation(stopped, a, receipt) else FinishResult(stopped, a, failure, failure);
    if done.answer.Refused? then Refuse(l, done.answer.error) else Tx(done.rows, receipt)
  }

  function SubmitClaimBoundStop(l: Ledger, a: nat, authorized: bool, reason: string, digest: string, scopedEvidence: bool, timely: bool): Tx
    requires ForeignKeys(l)
  {
    if a >= |l.attempts| || !authorized then Refuse(l, Forbidden)
    else
      var earlier := FindStop(l.stops, a);
      if earlier.Some? then
        (if l.stops[earlier.value] == StopAccepted(a, ClaimBound, digest) then Tx(l, StopReceipt(earlier.value)) else Refuse(l, Conflict))
      else if !UnstartedSignature(l, a) || scopedEvidence || !timely then Refuse(l, Conflict)
      else
        CloseUnstarted(l, a, ClaimBound, digest, ClaimBoundFailure(reason), StopReceipt(|l.stops|))
  }

  const SignedOffBeforeStart := Report(Failed, "DISPATCH_INCARNATION_SIGNED_OFF_BEFORE_START",
                                       "The supervisor holding this claim was replaced before the attempt started. No start permit was ever issued, so nothing ran.", None)

  function CloseOrphan(l: Ledger, a: nat, i: Incarnation): Tx
    requires ForeignKeys(l)
  {
    if a >= |l.attempts| then Refuse(l, Forbidden)
    else if !i.signedOff || !UnstartedSignature(l, a) || HasStop(l.stops, a) then Tx(l, Skipped)
    else
      CloseUnstarted(l, a, SignedOffUnstarted, "", SignedOffBeforeStart, Done)
  }

  /* ---- cancellation and recovery ---- */

  function Cancel(l: Ledger, key: string, expectedVersion: nat, authorized: bool): Tx
    requires ForeignKeys(l)
  {
    if !authorized then Refuse(l, Forbidden)
    else if key in l.cancelActions then
      (if l.cancelActions[key] == expectedVersion then Tx(l, Done) else Refuse(l, IdempotencyConflict))
    else if l.version != expectedVersion then Refuse(l, Conflict)
    else
      var done := if Terminal(l.state) then Tx(l, Done) else CancelOpen(l);
      if done.answer.Refused? then Refuse(l, done.answer.error)
      else Tx(done.rows.(cancelActions := done.rows.cancelActions[key := expectedVersion]), Done)
  }

  function CancelOpen(l: Ledger): Tx
    requires ForeignKeys(l)
  {
    var c := OpenCandidate(l);
    var a := if c.Some? then AttemptOf(l.attempts, c.value) else None;
    if a.Some? then
      var l := if l.state == CancelRequested then l else CancelForStop(l, a.value);
      if l.attempts[a.value].stopped && !Unresolved(l.publications) then FinishResult(l, a.value, CancelledByRequester, CancelledByRequester)
      else Tx(l, Done)
    else if l.firstClaimed && !RetryAuthority(l) then Refuse(l, Conflict)
    else if c.Some? && l.candidates[c.value].claimed then Refuse(l, Conflict)
    else CancelUnclaimed(l)
  }

  function CancelUnclaimed(l: Ledger): Tx
    requires ForeignKeys(l)
  {
    var inserted := InsertResult(RetireOpen(l), None, CancelledByRequester);
    if inserted.None? then Refuse(l, IdempotencyConflict)
    else Tx(Transition(inserted.value.0, Cancelled, Some(inserted.value.1)), Done)
  }

  datatype RecoveryMode = CloseFailed | CloseCancelled | RetrySameContract

  // Evidence an operator recovers with: an observation, or an attestation about the bound scope.
  datatype RecoveryEvidence = FromRuntime(observation: Observation) | Attested(rebooted: bool, digest: string, valid: bool)

  function AttestedKind(rebooted: bool): StopKind { if rebooted then RuntimeRebooted else OperatorAttested }

  function AcceptRecoveryStop(l: Ledger, a: nat, e: RecoveryEvidence): (t: Tx)
    requires ForeignKeys(l) && a < |l.attempts|
    ensures ForeignKeys(t.rows) && |t.rows.attempts| == |l.attempts|
  {
    match e
    case FromRuntime(o) => AcceptScopedStop(l, a, o)
    case Attested(rebooted, digest, valid) =>
      if !valid || (l.attempts[a].scopeId.None? && (l.attempts[a].startedAt.Some? || HasStarted(l.startedScopes, a))) then Refuse(l, Conflict)
      else RecordStop(l, a, AttestedKind(rebooted), digest)
  }

  function RecoveryReport(mode: RecoveryMode): Report {
    Report(if mode == CloseCancelled then Cancelled else Failed, "Execution closed through explicit recovery",
           "The authorized recovery decision and stop evidence are preserved in the audit.", None)
  }

  // `action` stands for the whole recovery call; replaying the same key with another call is refused.
  function Recover(l: Ledger, a: nat, key: string, action: string, expectedVersion: nat, e: RecoveryEvidence, mode: RecoveryMode,
                   authorized: bool, retryAllowed: bool): Tx
    requires ForeignKeys(l)
  {
    if a >= |l.attempts| || !authorized then Refuse(l, Forbidden)
    else if key in l.recoveryActions then
      (if l.recoveryActions[key] == action then Tx(l, Done) else Refuse(l, IdempotencyConflict))
    else if l.version != expectedVersion || !Current(l, a) || l.resultId.Some? || l.state !in {Uncertain, CancelRequested} || Unresolved(l.publications)
    then Refuse(l, Conflict)
    else
      var stop := AcceptRecoveryStop(l, a, e);
      if stop.answer.Refused? then Refuse(l, stop.answer.error)
      else
        var done := EndRecovery(stop.rows, a, mode, retryAllowed);
        if done.answer.Refused? then Refuse(l, done.answer.error)
        else Tx(done.rows.(recoveryActions := done.rows.recoveryActions[key := action]), Done)
  }

  function EndRecovery(l: Ledger, a: nat, mode: RecoveryMode, retryAllowed: bool): Tx
    requires ForeignKeys(l) && a < |l.attempts|
  {
    if mode == RetrySameContract then AuthorizeRetry(l, a, retryAllowed) else FinishResult(l, a, RecoveryReport(mode), RecoveryReport(mode))
  }

  function AuthorizeRetry(l: Ledger, a: nat, allowed: bool): Tx
    requires ForeignKeys(l) && a < |l.attempts|
  {
    if l.state != Uncertain then Refuse(l, Conflict)
    else if !allowed then Refuse(l, Forbidden)
    else
      var ended := Terminalize(l, a, Failed);
      if ended.None? then Refuse(l, Conflict)
      else
        var l := ended.value.(authorizations := l.authorizations + [RetryAuthorized(a, l.generation)],
                              retryAuthorization := Some(|l.authorizations|));
        Tx(Transition(l, Waiting, None), Done)
  }

  /* ---- result acceptance: first transaction, foreign work, last transaction ---- */

  // A request that already has its result answers a replay or records a late result.
  function AlreadyDecided(l: Ledger, a: nat, submitted: Report): Tx
    requires |l.results| > 0
  {
    if exists i :: 0 <= i < |l.accepted| && l.accepted[i].attempt == a && l.accepted[i].submitted == submitted
    then Tx(l, Receipt(true, 0, l.results[0].report))
    else Tx(l.(late := l.late + [LateResult(a, submitted)]), Receipt(false, 0, l.results[0].report))
  }

  // `failure` is the reason for which a submitted success is downgraded, if any.
  function BeginResult(l: Ledger, a: nat, submitted: Report, authorized: bool, intact: bool, failure: Option<string>): Tx
    requires ForeignKeys(l)
  {
    if a >= |l.attempts| || !authorized then Refuse(l, Forbidden)
    else if !Terminal(submitted.outcome) then Refuse(l, InvalidInput)
    else if |l.results| > 0 then AlreadyDecided(l, a, submitted)
    else if !Current(l, a) || !l.attempts[a].stopped || !HasStop(l.stops, a) || !intact then Refuse(l, Conflict)
    else if l.attempts[a].scopeId.None? && submitted.outcome == Succeeded then Refuse(l, Conflict)
    else if l.state == Uncertain then Refuse(l, Conflict)
    else
      var report := if l.state == CancelRequested then submitted.(outcome := Cancelled) else submitted;
      var report := if report.outcome == Succeeded && failure.Some? then report.(outcome := Failed, summary := failure.value) else report;
      var s := Submission(a, submitted, report);
      Tx(l.(pending := l.pending + multiset{s}), Pending(s))
  }

  // Verification or publication outside any transaction turns the pending result into a failure.
  function FailPending(l: Ledger, s: Submission, summary: string): Tx {
    if s !in l.pending then Refuse(l, Conflict)
    else
      var failed := s.(report := s.report.(outcome := Failed, summary := summary));
      Tx(l.(pending := l.pending - multiset{s} + multiset{failed}), Pending(failed))
  }

  function EndResult(l: Ledger, s: Submission, authorized: bool, publishable: bool): Tx
    requires ForeignKeys(l)
  {
    if s !in l.pending || s.attempt >= |l.attempts| || !authorized then Refuse(l, Forbidden)
    else if |l.results| > 0 then AlreadyDecided(l, s.attempt, s.submitted)
    else if !Current(l, s.attempt) || Unresolved(l.publications) then Refuse(l, Conflict)
    else if l.state == CancelRequested then
      var done := FinishResult(l.(late := l.late + [LateResult(s.attempt, s.submitted)]), s.attempt, s.report.(outcome := Cancelled), s.submitted);
      if done.answer.Refused? then Refuse(l, done.answer.error) else done
    else if l.state !in {Claimed, Running} then Refuse(l, Conflict)
    else
      var report := if s.report.outcome == Succeeded && !publishable then s.report.(outcome := Failed, summary := "authorization_unavailable") else s.report;
      FinishResult(l, s.attempt, report, s.submitted)
  }

  /* ---- publication, under the per-request publisher lock ---- */

  function StoreOutcome(l: Ledger, op: nat, outcome: PublicationState): Ledger
    requires op < |l.publications|
  {
    if Resolved(l.publications[op]) then l
    else l.(publications := l.publications[op := l.publications[op].(state := outcome)])
  }

  // What reconciliation may learn: a PREPARED operation never crossed the send gate, any other asks the port,
  // which can only confirm or stay unknown.
  function Reconcile(l: Ledger, op: nat, seen: bool): Tx {
    if l.publisher.Some? || op >= |l.publications| then Refuse(l, Conflict)
    else
      var outcome := if l.publications[op].state == Prepared then PublicationFailed else if seen then Confirmed else Unknown;
      Tx(StoreOutcome(l, op, outcome), Published(outcome))
  }

  function BeginPublish(l: Ledger, a: nat, artifact: string, head: string, authorized: bool, publishable: bool, seen: bool): Tx
    requires ForeignKeys(l)
  {
    if l.publisher.Some? || a >= |l.attempts| || !authorized then Refuse(l, Forbidden)
    else
      var n := |l.publications|;
      if n > 0 && ((l.publications[n - 1].attempt == a && l.publications[n - 1].artifact == artifact) || !Resolved(l.publications[n - 1])) then
        (if Resolved(l.publications[n - 1]) then Tx(l, Published(l.publications[n - 1].state)) else Reconcile(l, n - 1, seen))
      else if l.state != Running || !Current(l, a) || !l.attempts[a].stopped || !publishable then Refuse(l, Conflict)
      else
        var expected := if n > 0 && l.publications[n - 1].state == Confirmed then Some(l.publications[n - 1].head) else None;
        Tx(l.(publications := l.publications + [Publication(a, artifact, head, expected, Prepared)], publisher := Some(ToSend(n))), Done)
  }

  function OpenSendGate(l: Ledger, authorized: bool): Tx
    requires ForeignKeys(l)
  {
    if !(l.publisher.Some? && l.publisher.value.ToSend?) then Refuse(l, Conflict)
    else
      var op := l.publisher.value.op;
      if !authorized || l.state != Running then Tx(StoreOutcome(l, op, PublicationFailed).(publisher := None), Published(PublicationFailed))
      else if l.publications[op].state != Prepared then Tx(l.(publisher := Some(ToCall(op))), Done)
      else Tx(l.(publications := l.publications[op := l.publications[op].(state := Sent)], publisher := Some(ToCall(op))), Done)
  }

  // The port is called outside any transaction.
  function CallPort(l: Ledger): Tx {
    if !(l.publisher.Some? && l.publisher.value.ToCall?) then Refuse(l, Conflict)
    else Tx(l.(portCalls := l.portCalls + [Left(l.publisher.value.op)], publisher := Some(ToReturn(l.publisher.value.op))), Done)
  }

  // The call comes back; a failed receipt is given only when nothing was issued.
  function ReturnPort(l: Ledger, status: ReceiptStatus, issued: bool): Tx {
    if !(l.publisher.Some? && l.publisher.value.ToReturn?) || (status == SaysFailed && issued) then Refuse(l, Conflict)
    else Tx(l.(portCalls := l.portCalls + [Back(l.publisher.value.op, issued)], publisher := Some(ToStore(l.publisher.value.op, status))), Done)
  }

  function StoreReceipt(l: Ledger): Tx
    requires ForeignKeys(l)
  {
    if !(l.publisher.Some? && l.publisher.value.ToStore?) then Refuse(l, Conflict)
    else Tx(StoreOutcome(l, l.publisher.value.op, Stored(l.publisher.value.status)).(publisher := None), Published(Stored(l.publisher.value.status)))
  }

  // The publishing process dies: its session lock is released, the rows stay.
  function Crash(l: Ledger): Tx { Tx(l.(publisher := None), Done) }

  // An operator's attestation that the remote does not carry the head; one of a remote that carries it is refused.
  function Resolve(l: Ledger, op: nat, key: string, authorized: bool, attestation: Attestation): Tx {
    if l.publisher.Some? || op >= |l.publications| || !authorized then Refuse(l, Forbidden)
    else if key in l.resolutions then
      (if l.resolutions[key] == Resolution(op, attestation.digest) then Tx(l, Published(l.publications[op].state)) else Refuse(l, IdempotencyConflict))
    else if l.publications[op].state != Unknown || attestation.remoteHead == Some(l.publications[op].head) || !attestation.valid then Refuse(l, Conflict)
    else Tx(l.(publications := l.publications[op := l.publications[op].(state := PublicationFailed)],
                resolutions := l.resolutions[key := Resolution(op, attestation.digest)]),
            Published(PublicationFailed))
  }
}
