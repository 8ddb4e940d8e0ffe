// What one transaction may never undo, whatever it is: histories only grow, decided
// rows stay decided, and a request that has ended does not change any more.
module DispatchEvolution {
  import opened Options
  import opened DispatchRows
  import opened DispatchRules

  // One transaction on the rows of one request.
  datatype Op =
    | PrepareSources(valid: bool)
    | ReserveSlot(route: Route, incarnation: nat, eligible: bool, now: int)
    | RetireExpired(jobIdle: bool, now: int)
    | RejectRequest(reason: string, jobIdle: bool)
    | ClaimAttempt(incarnation: nat, claimKey: string, authorized: bool, eligible: bool, now: int)
    | StartAttempt(a: nat, scope: Scope, authorized: bool, now: int, maxDuration: int)
    | RenewAttempt(a: nat, scopeId: Option<string>, authorized: bool, now: int, maxDuration: int)
    | ResumeAttempt(a: nat, scope: Scope, authorized: bool, now: int, maxDuration: int)
    | ExpireAttempt(a: nat, now: int, maxDuration: int)
    | StopAttempt(a: nat, authorized: bool, observation: Observation)
    | StopUnstarted(a: nat, authorized: bool, reason: string, digest: string, scopedEvidence: bool, timely: bool)
    | CloseSignedOff(a: nat)
    | CancelRequest(key: string, expectedVersion: nat, authorized: bool)
    | RecoverRequest(a: nat, key: string, action: string, expectedVersion: nat, evidence: RecoveryEvidence, mode: RecoveryMode,
                     authorized: bool, retryAllowed: bool)
    | BeginCompletion(a: nat, submitted: Report, authorized: bool, intact: bool, failure: Option<string>)
    | FailCompletion(submission: Submission, summary: string)
    | EndCompletion(submission: Submission, authorized: bool, publishable: bool)
    | BeginPublication(a: nat, artifact: string, head: string, authorized: bool, publishable: bool, seen: bool)
    | SendPublication(authorized: bool)
    | PortCalled
    | PortReturned(status: ReceiptStatus, issued: bool)
    | StorePublication
    | PublisherDied
    | ReconcilePublication(op: nat, seen: bool)
    | ResolvePublication(op: nat, key: string, authorized: bool, attestation: Attestation)

  // Operations up to the end of an attempt's execution; the others recover, complete and publish.
  predicate Lifecycle(op: Op) {
    || op.PrepareSources? || op.ReserveSlot? || op.RetireExpired? || op.RejectRequest? || op.ClaimAttempt? || op.StartAttempt? || op.RenewAttempt?
    || op.ResumeAttempt? || op.ExpireAttempt? || op.StopAttempt? || op.StopUnstarted? || op.CloseSignedOff?
  }

  // `i` is the incarnation the operation speaks for, `free` whether its slot carries no open reservation.
  function Perform(l: Ledger, op: Op, i: Incarnation, free: bool): Tx
    requires ForeignKeys(l)
  {
    match op
    case PrepareSources(valid) => Prepare(l, valid)
    case ReserveSlot(route, incarnation, eligible, now) => Reserve(l, route, incarnation, i.slot, free, eligible && !i.signedOff, now)
    case RetireExpired(jobIdle, now) => Retire(l, jobIdle, now)
    case RejectRequest(reason, jobIdle) => RejectUnstarted(l, reason, jobIdle)
    case ClaimAttempt(incarnation, claimKey, authorized, eligible, now) => Claim(l, incarnation, i, claimKey, free, authorized, eligible, now)
    case StartAttempt(a, scope, authorized, now, maxDuration) => Start(l, a, i, scope, authorized, now, maxDuration)
    case RenewAttempt(a, scopeId, authorized, now, maxDuration) => Renew(l, a, i, scopeId, authorized, now, maxDuration)
    case ResumeAttempt(a, scope, authorized, now, maxDuration) => Resume(l, a, i, scope, authorized, now, maxDuration)
    case ExpireAttempt(a, now, maxDuration) => Expire(l, a, now, maxDuration)
    case StopAttempt(a, authorized, observation) => SubmitStop(l, a, authorized, observation)
    case StopUnstarted(a, authorized, reason, digest, scopedEvidence, timely) => SubmitClaimBoundStop(l, a, authorized, reason, digest, scopedEvidence, timely)
    case CloseSignedOff(a) => CloseOrphan(l, a, i)
    case CancelRequest(key, expectedVersion, authorized) => Cancel(l, key, expectedVersion, authorized)
    case RecoverRequest(a, key, action, expectedVersion, evidence, mode, authorized, retryAllowed) =>
      Recover(l, a, key, action, expectedVersion, evidence, mode, authorized, retryAllowed)
    case BeginCompletion(a, submitted, authorized, intact, failure) => BeginResult(l, a, submitted, authorized, intact, failure)
    case FailCompletion(submission, summary) => FailPending(l, submission, summary)
    case EndCompletion(submission, authorized, publishable) => EndResult(l, submission, authorized, publishable)
    case BeginPublication(a, artifact, head, authorized, publishable, seen) => BeginPublish(l, a, artifact, head, authorized, publishable, seen)
    case SendPublication(authorized) => OpenSendGate(l, authorized)
    case PortCalled => CallPort(l)
    case PortReturned(status, issued) => ReturnPort(l, status, issued)
    case StorePublication => StoreReceipt(l)
    case PublisherDied => Crash(l)
    case ReconcilePublication(op, seen) => Reconcile(l, op, seen)
    case ResolvePublication(op, key, authorized, attestation) => Resolve(l, op, key, authorized, attestation)
  }

  predicate AttemptEvolves(x: Attempt, y: Attempt) {
    && y.candidate == x.candidate && y.incarnation == x.incarnation && y.claimKey == x.claimKey
    && (x.stopped ==> y.stopped) && (x.revoked ==> y.revoked)
    && (x.scopeId.Some? ==> y.scopeId == x.scopeId)
    && (x.scopeId.None? && x.revoked ==> y.scopeId.None?)
  }

  predicate AttemptsEvolve(before: seq<Attempt>, after: seq<Attempt>) {
    |before| <= |after| && forall a :: 0 <= a < |before| ==> AttemptEvolves(before[a], after[a])
  }

  predicate CandidateEvolves(x: Candidate, y: Candidate) {
    && y.route == x.route && y.deadline == x.deadline && (x.claimed ==> y.claimed)
    && (y.claimed == x.claimed ==> y.slot == x.slot && y.incarnation == x.incarnation)
  }

  predicate CandidatesEvolve(before: seq<Candidate>, after: seq<Candidate>) {
    |before| <= |after| && forall k :: 0 <= k < |before| ==> CandidateEvolves(before[k], after[k])
  }

  predicate ReservationsEvolve(before: seq<Reservation>, after: seq<Reservation>) {
    |before| <= |after| && forall k :: 0 <= k < |before| && before[k].released ==> after[k].released
  }

  predicate PublicationEvolves(x: Publication, y: Publication) {
    && y == x.(state := y.state) && (Resolved(x) ==> y == x) && (y.state == Prepared ==> x.state == Prepared)
  }

  predicate PublicationsEvolve(before: seq<Publication>, after: seq<Publication>) {
    |before| <= |after| && forall p :: 0 <= p < |before| ==> PublicationEvolves(before[p], after[p])
  }

  // No permit is added for an attempt that was revoked before.
  predicate PermitsEvolve(revoked: seq<Attempt>, before: seq<StartPermit>, after: seq<StartPermit>) {
    && before <= after
    && forall p :: |before| <= p < |after| && after[p].attempt < |revoked| ==> !revoked[after[p].attempt].revoked
  }

  predicate HistoriesGrow(l: Ledger, m: Ledger) {
    && l.outbox <= m.outbox && l.results <= m.results && l.accepted <= m.accepted && l.late <= m.late
    && l.stops <= m.stops && l.startedScopes <= m.startedScopes && l.portCalls <= m.portCalls
    && l.authorizations <= m.authorizations && l.consumed <= m.consumed
    && l.version <= m.version && l.generation <= m.generation
    && (l.sourcesReady ==> m.sourcesReady) && (l.firstClaimed ==> m.firstClaimed)
  }

  // Everything the lifecycle decides is as it was.
  predicate Frozen(l: Ledger, m: Ledger) {
    && m.state == l.state && m.version == l.version && m.resultId == l.resultId && m.generation == l.generation
    && m.candidates == l.candidates && m.reservations == l.reservations
    && m.results == l.results && m.outbox == l.outbox && m.accepted == l.accepted
  }

  predicate Evolves(l: Ledger, m: Ledger) {
    && AttemptsEvolve(l.attempts, m.attempts)
    && CandidatesEvolve(l.candidates, m.candidates)
    && ReservationsEvolve(l.reservations, m.reservations)
    && PublicationsEvolve(l.publications, m.publications)
    && PermitsEvolve(l.attempts, l.permits, m.permits)
    && HistoriesGrow(l, m)
    && (Terminal(l.state) ==> Frozen(l, m))
    && (l.state == CancelRequested ==> m.state in {CancelRequested, Failed, Cancelled})
  }

  // A request that ended holds its result; nothing else is needed for it to stay as it is.
  predicate EndedHasResult(l: Ledger) {
    Terminal(l.state) ==> |l.results| > 0 && l.resultId.Some?
  }

  lemma EvolvesTransitively(l: Ledger, m: Ledger, n: Ledger)
    requires Evolves(l, m) && Evolves(m, n)
    ensures Evolves(l, n)
  {}

  /* ---- the parts ---- */

  lemma Unchanged(l: Ledger)
    ensures AttemptsEvolve(l.attempts, l.attempts) && CandidatesEvolve(l.candidates, l.candidates)
    ensures ReservationsEvolve(l.reservations, l.reservations) && PublicationsEvolve(l.publications, l.publications)
    ensures PermitsEvolve(l.attempts, l.permits, l.permits) && Evolves(l, l)
  {}

  lemma AttemptRow(attempts: seq<Attempt>, a: nat, row: Attempt)
    requires a < |attempts| && AttemptEvolves(attempts[a], row)
    ensures AttemptsEvolve(attempts, attempts[a := row])
  {}

  lemma CandidateRow(cs: seq<Candidate>, k: nat, c: Candidate)
    requires k < |cs| && CandidateEvolves(cs[k], c)
    ensures CandidatesEvolve(cs, cs[k := c])
  {}

  lemma ReservationRow(rs: seq<Reservation>, k: nat, r: Reservation)
    requires k < |rs| && (rs[k].released ==> r.released)
    ensures ReservationsEvolve(rs, rs[k := r])
  {}

  lemma PublicationRow(ps: seq<Publication>, op: nat, p: Publication)
    requires op < |ps| && PublicationEvolves(ps[op], p)
    ensures PublicationsEvolve(ps, ps[op := p])
  {}

  /* ---- elementary steps ---- */

  lemma MoveEvolves(l: Ledger, a: nat, row: Attempt)
    requires ForeignKeys(l) && a < |l.attempts| && AttemptEvolves(l.attempts[a], row)
    requires !Terminal(l.state) && (l.state == CancelRequested ==> row.status == CancelRequested)
    ensures Evolves(l, MoveTogether(l, a, row)) && ForeignKeys(MoveTogether(l, a, row))
  {
    hide AttemptsEvolve, AttemptEvolves, CandidatesEvolve, ReservationsEvolve, PublicationsEvolve, PermitsEvolve;
    Unchanged(l);
    AttemptRow(l.attempts, a, row);
    var c := l.attempts[a].candidate;
    CandidateRow(l.candidates, c, l.candidates[c].(status := row.status));
    MoveKeys(l, a, row);
  }

  lemma MoveKeys(l: Ledger, a: nat, row: Attempt)
    requires ForeignKeys(l) && a < |l.attempts| && AttemptEvolves(l.attempts[a], row)
    ensures ForeignKeys(MoveTogether(l, a, row))
  {}

  lemma StopEvolves(l: Ledger, a: nat, kind: StopKind, digest: string)
    requires ForeignKeys(l) && a < |l.attempts|
    ensures Evolves(l, AcceptStop(l, a, kind, digest)) && ForeignKeys(AcceptStop(l, a, kind, digest))
  {
    AttemptRow(l.attempts, a, l.attempts[a].(stopped := true, revoked := true));
  }

  // Ending an attempt changes these rows only.
  lemma TerminalizeRows(l: Ledger, a: nat, outcome: Status)
    requires ForeignKeys(l) && a < |l.attempts|
    ensures var t := Terminalize(l, a, outcome);
            t.Some? ==> t.value == l.(attempts := t.value.attempts, candidates := t.value.candidates, reservations := t.value.reservations)
  {
    hide Unresolved;
  }

  lemma TerminalizeEvolves(l: Ledger, a: nat, outcome: Status)
    requires ForeignKeys(l) && a < |l.attempts|
    ensures var t := Terminalize(l, a, outcome);
            t.Some? ==>
              && t.value == l.(attempts := t.value.attempts, candidates := t.value.candidates, reservations := t.value.reservations)
              && AttemptsEvolve(l.attempts, t.value.attempts) && CandidatesEvolve(l.candidates, t.value.candidates)
              && ReservationsEvolve(l.reservations, t.value.reservations)
  {
    var k := l.attempts[a].candidate;
    AttemptRow(l.attempts, a, l.attempts[a].(status := outcome, revoked := true));
    CandidateRow(l.candidates, k, l.candidates[k].(status := Finished));
    ReservationRow(l.reservations, k, l.reservations[k].(released := true));
  }

  lemma FinishEvolves(l: Ledger, a: nat, report: Report, submitted: Report)
    requires ForeignKeys(l) && a < |l.attempts| && !Terminal(l.state) && (l.state == CancelRequested ==> report.outcome in {Failed, Cancelled})
    ensures Evolves(l, FinishResult(l, a, report, submitted).rows)
  {
    hide AttemptsEvolve, AttemptEvolves, CandidatesEvolve, ReservationsEvolve, PublicationsEvolve, PermitsEvolve, HistoriesGrow, Terminalize, Unresolved;
    Unchanged(l);
    FinishGrows(l, a, report, submitted);
    var inserted := InsertResult(l, Some(a), report);
    if inserted.Some? {
      TerminalizeEvolves(Transition(inserted.value.0, report.outcome, Some(inserted.value.1)), a, report.outcome);
    }
  }

  // A finish changes these rows only.
  lemma FinishKeeps(l: Ledger, a: nat, report: Report, submitted: Report)
    requires ForeignKeys(l) && a < |l.attempts|
    ensures var m := FinishResult(l, a, report, submitted).rows;
            && m == l.(state := m.state, version := m.version, resultId := m.resultId, results := m.results, outbox := m.outbox,
                       accepted := m.accepted, attempts := m.attempts, candidates := m.candidates, reservations := m.reservations)
  {
    hide AttemptsEvolve, CandidatesEvolve, ReservationsEvolve, Terminalize, Unresolved;
    var inserted := InsertResult(l, Some(a), report);
    if inserted.Some? {
      TerminalizeRows(Transition(inserted.value.0, report.outcome, Some(inserted.value.1)), a, report.outcome);
    }
  }

  // And it appends to the histories among them.
  lemma FinishAppends(l: Ledger, a: nat, report: Report, submitted: Report)
    requires ForeignKeys(l) && a < |l.attempts|
    ensures var m := FinishResult(l, a, report, submitted).rows;
            && m.version >= l.version && (m.results == l.results || l.results == [])
            && (m.outbox == l.outbox || (|m.outbox| == |l.outbox| + 1 && m.outbox[..|l.outbox|] == l.outbox))
            && (m.accepted == l.accepted || (|m.accepted| == |l.accepted| + 1 && m.accepted[..|l.accepted|] == l.accepted))
  {
    hide AttemptsEvolve, CandidatesEvolve, ReservationsEvolve, Terminalize, Unresolved;
    var inserted := InsertResult(l, Some(a), report);
    if inserted.Some? {
      TerminalizeRows(Transition(inserted.value.0, report.outcome, Some(inserted.value.1)), a, report.outcome);
    }
  }

  lemma FinishGrows(l: Ledger, a: nat, report: Report, submitted: Report)
    requires ForeignKeys(l) && a < |l.attempts|
    ensures HistoriesGrow(l, FinishResult(l, a, report, submitted).rows)
  {
    hide FinishResult;
    FinishKeeps(l, a, report, submitted);
    FinishAppends(l, a, report, submitted);
  }

  lemma RetireOpenEvolves(l: Ledger)
    requires ForeignKeys(l)
    ensures var r := RetireOpen(l);
            && r == l.(candidates := r.candidates, reservations := r.reservations)
            && CandidatesEvolve(l.candidates, r.candidates) && ReservationsEvolve(l.reservations, r.reservations)
  {
    var open := OpenCandidate(l);
    if open.Some? {
      CandidateRow(l.candidates, open.value, l.candidates[open.value].(status := Retired));
      ReservationRow(l.reservations, open.value, l.reservations[open.value].(released := true));
    }
  }

  lemma ReserveEvolves(l: Ledger, route: Route, incarnation: nat, slot: nat, slotFree: bool, eligible: bool, now: int)
    requires ForeignKeys(l)
    ensures Evolves(l, Reserve(l, route, incarnation, slot, slotFree, eligible, now).rows)
  {
    hide AttemptsEvolve, CandidatesEvolve, ReservationsEvolve, PublicationsEvolve, PermitsEvolve, RetryAuthority;
    Unchanged(l);
    CandidateAppended(l, Candidate(route, if route == Host then Some(incarnation) else None, slot, Reserved, false, now + LEASE_MS), Reservation(slot, false));
  }

  lemma RetirementEvolves(l: Ledger, reason: string, jobIdle: bool, now: int)
    requires ForeignKeys(l)
    ensures Evolves(l, Retire(l, jobIdle, now).rows)
    ensures Evolves(l, RejectUnstarted(l, reason, jobIdle).rows)
  {
    hide AttemptsEvolve, CandidatesEvolve, ReservationsEvolve, PublicationsEvolve, PermitsEvolve, RetryAuthority, RetireOpen;
    Unchanged(l);
    RetireOpenEvolves(l);
  }

  lemma CandidateAppended(l: Ledger, c: Candidate, r: Reservation)
    ensures CandidatesEvolve(l.candidates, l.candidates + [c]) && ReservationsEvolve(l.reservations, l.reservations + [r])
  {}

  lemma ClaimEvolves(l: Ledger, incarnation: nat, i: Incarnation, claimKey: string, free: bool, authorized: bool, eligible: bool, now: int)
    requires ForeignKeys(l)
    ensures Evolves(l, Claim(l, incarnation, i, claimKey, free, authorized, eligible, now).rows)
  {
    hide AttemptsEvolve, CandidatesEvolve, ReservationsEvolve, PublicationsEvolve, PermitsEvolve, RetryAuthority, CandidateEvolves;
    Unchanged(l);
    var t := Claim(l, incarnation, i, claimKey, free, authorized, eligible, now).rows;
    if t != l {
      var k := l.generation - 1;
      ClaimedCandidate(l.candidates[k], i.slot, incarnation);
      CandidateRow(l.candidates, k, l.candidates[k].(slot := i.slot, incarnation := Some(incarnation), status := Claimed, claimed := true));
      ReservationRow(l.reservations, k, l.reservations[k].(slot := i.slot));
      AttemptAppended(l.attempts, Attempt(k, incarnation, claimKey, Claimed, None, None, now, false, false));
    }
  }

  // A candidate that nobody claimed before may change its slot and its incarnation.
  lemma ClaimedCandidate(c: Candidate, slot: nat, incarnation: nat)
    ensures !c.claimed ==> CandidateEvolves(c, c.(slot := slot, incarnation := Some(incarnation), status := Claimed, claimed := true))
  {}

  lemma AttemptAppended(attempts: seq<Attempt>, row: Attempt)
    ensures AttemptsEvolve(attempts, attempts + [row])
  {}

  lemma StartEvolves(l: Ledger, a: nat, i: Incarnation, scope: Scope, authorized: bool, now: int, maxDuration: int)
    requires ForeignKeys(l)
    ensures Evolves(l, Start(l, a, i, scope, authorized, now, maxDuration).rows)
  {
    hide Evolves, RecordedScope, ScopeOfIncarnation, MoveTogether;
    Unchanged(l);
    if a < |l.attempts| && !l.attempts[a].revoked && l.state in {Claimed, Running} {
      PermitEvolves(l, l, StartPermit(a, l.attempts[a].incarnation, scope));
      if l.attempts[a].scopeId.None? || l.attempts[a].scopeId.value == scope.scopeId { BeginEvolves(l, a, scope, now); }
    }
  }

  lemma PermitEvolves(l: Ledger, m: Ledger, p: StartPermit)
    requires Evolves(l, m) && (p.attempt < |l.attempts| ==> !l.attempts[p.attempt].revoked)
    ensures Evolves(l, m.(permits := m.permits + [p]))
  {
    hide AttemptsEvolve, CandidatesEvolve, ReservationsEvolve, PublicationsEvolve;
  }

  lemma BeginEvolves(l: Ledger, a: nat, scope: Scope, now: int)
    requires ForeignKeys(l) && a < |l.attempts| && !l.attempts[a].revoked && l.state in {Claimed, Running}
    requires l.attempts[a].scopeId.None? || l.attempts[a].scopeId.value == scope.scopeId
    ensures var m := MoveTogether(l.(startedScopes := l.startedScopes + [StartedScope(a, scope)]), a,
                                  l.attempts[a].(status := Running, scopeId := Some(scope.scopeId), startedAt := Some(now), heartbeatAt := now));
            Evolves(l, m.(permits := m.permits + [StartPermit(a, l.attempts[a].incarnation, scope)]))
  {
    hide Evolves, MoveTogether;
    var begun := l.(startedScopes := l.startedScopes + [StartedScope(a, scope)]);
    var row := l.attempts[a].(status := Running, scopeId := Some(scope.scopeId), startedAt := Some(now), heartbeatAt := now);
    ScopeStarts(l, StartedScope(a, scope));
    MoveEvolves(begun, a, row);
    EvolvesTransitively(l, begun, MoveTogether(begun, a, row));
    PermitEvolves(l, MoveTogether(begun, a, row), StartPermit(a, l.attempts[a].incarnation, scope));
  }

  lemma ScopeStarts(l: Ledger, e: StartedScope)
    ensures Evolves(l, l.(startedScopes := l.startedScopes + [e]))
  {
    Unchanged(l);
  }

  lemma Moved(l: Ledger, a: nat, row: Attempt)
    requires ForeignKeys(l) && a < |l.attempts|
    ensures var m := MoveTogether(l, a, row); m.state == row.status && m.attempts == l.attempts[a := row] && m.publications == l.publications
  {}

  lemma LeaseMoves(l: Ledger, a: nat, now: int)
    requires ForeignKeys(l) && a < |l.attempts| && Executing(l.state)
    ensures Evolves(l, MoveTogether(l, a, l.attempts[a].(status := Running, heartbeatAt := now)))
    ensures Evolves(l, LeaseExpired(l, a)) && ForeignKeys(LeaseExpired(l, a)) && LeaseExpired(l, a).state == Uncertain
    ensures |LeaseExpired(l, a).attempts| == |l.attempts|
    ensures Evolves(l, CancelForStop(l, a))
  {
    hide Evolves, MoveTogether;
    MoveEvolves(l, a, l.attempts[a].(status := Running, heartbeatAt := now));
    MoveEvolves(l, a, l.attempts[a].(status := Uncertain));
    MoveEvolves(l, a, l.attempts[a].(status := CancelRequested, revoked := true));
    Moved(l, a, l.attempts[a].(status := Uncertain));
  }

  lemma RenewEvolves(l: Ledger, a: nat, i: Incarnation, scopeId: Option<string>, authorized: bool, now: int, maxDuration: int)
    requires ForeignKeys(l)
    ensures Evolves(l, Renew(l, a, i, scopeId, authorized, now, maxDuration).rows)
  {
    hide Evolves, LeaseExpired, CancelForStop, Active;
    Unchanged(l);
    if a < |l.attempts| && Executing(l.state) {
      LeaseMoves(l, a, now);
      var m := LeaseExpired(l, a);
      LeaseMoves(m, a, now);
      HeartbeatEvolves(l, a, now);
      HeartbeatEvolves(m, a, now);
      EvolvesTransitively(l, m, CancelForStop(m, a));
      EvolvesTransitively(l, m, SetAttempt(m, a, m.attempts[a].(heartbeatAt := now)));
    }
  }

  lemma ResumeEvolves(l: Ledger, a: nat, i: Incarnation, scope: Scope, authorized: bool, now: int, maxDuration: int)
    requires ForeignKeys(l)
    ensures Evolves(l, Resume(l, a, i, scope, authorized, now, maxDuration).rows)
  {
    hide Evolves, RecordedScope, Active;
    Unchanged(l);
    if a < |l.attempts| && Executing(l.state) { LeaseMoves(l, a, now); }
  }

  lemma ExpireEvolves(l: Ledger, a: nat, now: int, maxDuration: int)
    requires ForeignKeys(l)
    ensures Evolves(l, Expire(l, a, now, maxDuration).rows)
  {
    hide Evolves, LeaseExpired, CancelForStop, HasStop;
    Unchanged(l);
    if a < |l.attempts| && Executing(l.state) { LeaseMoves(l, a, now); }
  }

  lemma HeartbeatEvolves(l: Ledger, a: nat, now: int)
    requires a < |l.attempts| && !Terminal(l.state)
    ensures Evolves(l, SetAttempt(l, a, l.attempts[a].(heartbeatAt := now)))
  {
    AttemptRow(l.attempts, a, l.attempts[a].(heartbeatAt := now));
  }

  lemma RecordStopEvolves(l: Ledger, a: nat, kind: StopKind, digest: string)
    requires ForeignKeys(l) && a < |l.attempts|
    ensures var t := RecordStop(l, a, kind, digest); Evolves(l, t.rows) && t.rows.state == l.state && ForeignKeys(t.rows)
  {
    hide Evolves;
    Unchanged(l);
    StopEvolves(l, a, kind, digest);
  }

  lemma CancellationEvolves(l: Ledger, a: nat, answer: Answer)
    requires ForeignKeys(l) && a < |l.attempts|
    ensures Evolves(l, FinishStoppedCancellation(l, a, answer).rows)
  {
    hide Evolves, FinishResult, Unresolved;
    Unchanged(l);
    if l.state == CancelRequested { FinishEvolves(l, a, StoppedCancellation, StoppedCancellation); }
  }

  lemma ScopedStopEvolves(l: Ledger, a: nat, o: Observation)
    requires ForeignKeys(l) && a < |l.attempts|
    ensures var t := AcceptScopedStop(l, a, o); Evolves(l, t.rows) && t.rows.state == l.state && ForeignKeys(t.rows)
  {
    hide Evolves, RecordedScope, HasStarted, Unresolved, RecordStop;
    Unchanged(l);
    RecordStopEvolves(l, a, ContainerStopped, o.digest);
  }

  lemma SubmitStopEvolves(l: Ledger, a: nat, authorized: bool, o: Observation)
    requires ForeignKeys(l)
    ensures Evolves(l, SubmitStop(l, a, authorized, o).rows)
  {
    hide Evolves, AcceptScopedStop, FinishStoppedCancellation;
    Unchanged(l);
    if a < |l.attempts| {
      ScopedStopEvolves(l, a, o);
      var stop := AcceptScopedStop(l, a, o);
      CancellationEvolves(stop.rows, a, stop.answer);
      EvolvesTransitively(l, stop.rows, FinishStoppedCancellation(stop.rows, a, stop.answer).rows);
    }
  }

  lemma UnstartedEvolves(l: Ledger, a: nat, kind: StopKind, digest: string, failure: Report, receipt: Answer)
    requires ForeignKeys(l) && a < |l.attempts| && UnstartedSignature(l, a)
    ensures Evolves(l, CloseUnstarted(l, a, kind, digest, failure, receipt).rows)
  {
    hide Evolves, HasStarted, Unresolved, FinishStoppedCancellation, FinishResult;
    Unchanged(l);
    StopEvolves(l, a, kind, digest);
    var m := AcceptStop(l, a, kind, digest);
    CancellationEvolves(m, a, receipt);
    EvolvesTransitively(l, m, FinishStoppedCancellation(m, a, receipt).rows);
    if l.state != CancelRequested {
      FinishEvolves(m, a, failure, failure);
      EvolvesTransitively(l, m, FinishResult(m, a, failure, failure).rows);
    }
  }

  lemma ClaimBoundEvolves(l: Ledger, a: nat, authorized: bool, reason: string, digest: string, scopedEvidence: bool, timely: bool)
    requires ForeignKeys(l)
    ensures Evolves(l, SubmitClaimBoundStop(l, a, authorized, reason, digest, scopedEvidence, timely).rows)
  {
    hide Evolves, UnstartedSignature, CloseUnstarted;
    Unchanged(l);
    if a < |l.attempts| && UnstartedSignature(l, a) {
      UnstartedEvolves(l, a, ClaimBound, digest, ClaimBoundFailure(reason), StopReceipt(|l.stops|));
    }
  }

  lemma OrphanEvolves(l: Ledger, a: nat, i: Incarnation)
    requires ForeignKeys(l)
    ensures Evolves(l, CloseOrphan(l, a, i).rows)
  {
    hide Evolves, UnstartedSignature, CloseUnstarted, HasStop;
    Unchanged(l);
    if a < |l.attempts| && UnstartedSignature(l, a) {
      UnstartedEvolves(l, a, SignedOffUnstarted, "", SignedOffBeforeStart, Done);
    }
  }

  lemma ActionsEvolve(l: Ledger, m: Ledger, cancels: map<string, nat>, recoveries: map<string, string>)
    requires Evolves(l, m)
    ensures Evolves(l, m.(cancelActions := cancels)) && Evolves(l, m.(recoveryActions := recoveries))
  {}

  lemma RetiredWithResult(l: Ledger)
    requires ForeignKeys(l) && !Terminal(l.state)
    ensures var inserted := InsertResult(RetireOpen(l), None, CancelledByRequester);
            inserted.Some? ==> Evolves(l, Transition(inserted.value.0, Cancelled, Some(inserted.value.1)))
  {
    hide AttemptsEvolve, CandidatesEvolve, ReservationsEvolve, PublicationsEvolve, PermitsEvolve, RetireOpen;
    Unchanged(l);
    RetireOpenEvolves(l);
  }

  lemma CancelOpenEvolves(l: Ledger)
    requires ForeignKeys(l) && !Terminal(l.state)
    ensures Evolves(l, CancelOpen(l).rows)
  {
    hide Evolves, FinishResult, RetryAuthority, Unresolved, RetireOpen;
    Unchanged(l);
    var c := OpenCandidate(l);
    var a := if c.Some? then AttemptOf(l.attempts, c.value) else None;
    if a.Some? {
      MoveEvolves(l, a.value, l.attempts[a.value].(status := CancelRequested, revoked := true));
      var m := if l.state == CancelRequested then l else CancelForStop(l, a.value);
      assert Evolves(l, m) && ForeignKeys(m) && |m.attempts| == |l.attempts| && m.state == CancelRequested;
      FinishEvolves(m, a.value, CancelledByRequester, CancelledByRequester);
      EvolvesTransitively(l, m, FinishResult(m, a.value, CancelledByRequester, CancelledByRequester).rows);
    } else {
      RetiredWithResult(l);
    }
  }

  lemma CancelEvolves(l: Ledger, key: string, expectedVersion: nat, authorized: bool)
    requires ForeignKeys(l)
    ensures Evolves(l, Cancel(l, key, expectedVersion, authorized).rows)
  {
    hide Evolves, CancelOpen;
    Unchanged(l);
    ActionsEvolve(l, l, l.cancelActions[key := expectedVersion], map[]);
    if !Terminal(l.state) {
      CancelOpenEvolves(l);
      var m := CancelOpen(l).rows;
      ActionsEvolve(l, m, m.cancelActions[key := expectedVersion], map[]);
    }
  }

  lemma RetryEvolves(l: Ledger, a: nat, allowed: bool)
    requires ForeignKeys(l) && a < |l.attempts|
    ensures Evolves(l, AuthorizeRetry(l, a, allowed).rows)
  {
    hide AttemptsEvolve, CandidatesEvolve, ReservationsEvolve, PublicationsEvolve, PermitsEvolve, Terminalize;
    Unchanged(l);
    TerminalizeEvolves(l, a, Failed);
  }

  lemma RecoverEvolves(l: Ledger, a: nat, key: string, action: string, expectedVersion: nat, e: RecoveryEvidence, mode: RecoveryMode,
                       authorized: bool, retryAllowed: bool)
    requires ForeignKeys(l)
    ensures Evolves(l, Recover(l, a, key, action, expectedVersion, e, mode, authorized, retryAllowed).rows)
  {
    hide Evolves, AcceptRecoveryStop, EndRecovery, Unresolved;
    Unchanged(l);
    if a < |l.attempts| && l.state in {Uncertain, CancelRequested} {
      RecoveryEndEvolves(l, a, e, mode, retryAllowed);
      var done := EndRecovery(AcceptRecoveryStop(l, a, e).rows, a, mode, retryAllowed);
      ActionsEvolve(l, done.rows, map[], done.rows.recoveryActions[key := action]);
    }
  }

  lemma EndRecoveryEvolves(l: Ledger, a: nat, mode: RecoveryMode, allowed: bool)
    requires ForeignKeys(l) && a < |l.attempts| && !Terminal(l.state)
    ensures Evolves(l, EndRecovery(l, a, mode, allowed).rows)
  {
    hide Evolves, FinishResult, AuthorizeRetry;
    RetryEvolves(l, a, allowed);
    if mode != RetrySameContract { FinishEvolves(l, a, RecoveryReport(mode), RecoveryReport(mode)); }
  }

  lemma RecoveryEndEvolves(l: Ledger, a: nat, e: RecoveryEvidence, mode: RecoveryMode, allowed: bool)
    requires ForeignKeys(l) && a < |l.attempts| && l.state in {Uncertain, CancelRequested}
    ensures Evolves(l, EndRecovery(AcceptRecoveryStop(l, a, e).rows, a, mode, allowed).rows)
  {
    hide Evolves, AcceptRecoveryStop, EndRecovery;
    RecoveryStopEvolves(l, a, e);
    var m := AcceptRecoveryStop(l, a, e).rows;
    EndRecoveryEvolves(m, a, mode, allowed);
    EvolvesTransitively(l, m, EndRecovery(m, a, mode, allowed).rows);
  }

  lemma RecoveryStopEvolves(l: Ledger, a: nat, e: RecoveryEvidence)
    requires ForeignKeys(l) && a < |l.attempts|
    ensures var t := AcceptRecoveryStop(l, a, e); Evolves(l, t.rows) && t.rows.state == l.state && ForeignKeys(t.rows)
  {
    hide Evolves, AcceptScopedStop, RecordStop, HasStarted;
    Unchanged(l);
    match e
    case FromRuntime(o) => ScopedStopEvolves(l, a, o);
    case Attested(rebooted, digest, valid) => RecordStopEvolves(l, a, AttestedKind(rebooted), digest);
  }

  lemma LateEvolves(l: Ledger, a: nat, submitted: Report)
    ensures Evolves(l, l.(late := l.late + [LateResult(a, submitted)]))
  {
    Unchanged(l);
  }

  lemma BeginResultEvolves(l: Ledger, a: nat, submitted: Report, authorized: bool, intact: bool, failure: Option<string>)
    requires ForeignKeys(l)
    ensures Evolves(l, BeginResult(l, a, submitted, authorized, intact, failure).rows)
  {
    hide AttemptsEvolve, CandidatesEvolve, ReservationsEvolve, PublicationsEvolve, PermitsEvolve, HasStop;
    Unchanged(l);
  }

  lemma EndResultEvolves(l: Ledger, s: Submission, authorized: bool, publishable: bool)
    requires ForeignKeys(l) && EndedHasResult(l)
    ensures Evolves(l, EndResult(l, s, authorized, publishable).rows)
  {
    hide Evolves, FinishResult, Unresolved;
    Unchanged(l);
    LateEvolves(l, s.attempt, s.submitted);
    if s.attempt < |l.attempts| && |l.results| == 0 {
      var m := l.(late := l.late + [LateResult(s.attempt, s.submitted)]);
      var cancelled := s.report.(outcome := Cancelled);
      if l.state == CancelRequested {
        FinishEvolves(m, s.attempt, cancelled, s.submitted);
        EvolvesTransitively(l, m, FinishResult(m, s.attempt, cancelled, s.submitted).rows);
      } else if l.state in {Claimed, Running} {
        var report := if s.report.outcome == Succeeded && !publishable then s.report.(outcome := Failed, summary := "authorization_unavailable") else s.report;
        FinishEvolves(l, s.attempt, report, s.submitted);
      }
    }
  }

  lemma PublicationStored(l: Ledger, op: nat, state: PublicationState)
    requires op < |l.publications| && !Resolved(l.publications[op]) && state != Prepared
    ensures Evolves(l, l.(publications := l.publications[op := l.publications[op].(state := state)]))
  {
    hide AttemptsEvolve, CandidatesEvolve, ReservationsEvolve, PublicationsEvolve, PermitsEvolve;
    Unchanged(l);
    PublicationRow(l.publications, op, l.publications[op].(state := state));
  }

  lemma PublisherEvolves(l: Ledger, m: Ledger, publisher: Option<Publisher>)
    requires Evolves(l, m)
    ensures Evolves(l, m.(publisher := publisher))
  {}

  lemma StoreOutcomeEvolves(l: Ledger, op: nat, outcome: PublicationState, publisher: Option<Publisher>)
    requires op < |l.publications| && outcome != Prepared
    ensures Evolves(l, StoreOutcome(l, op, outcome)) && Evolves(l, StoreOutcome(l, op, outcome).(publisher := publisher))
  {
    hide Evolves;
    Unchanged(l);
    if !Resolved(l.publications[op]) { PublicationStored(l, op, outcome); }
    PublisherEvolves(l, StoreOutcome(l, op, outcome), publisher);
  }

  lemma PublishingEvolves(l: Ledger, a: nat, artifact: string, head: string, authorized: bool, publishable: bool, seen: bool, op: nat)
    requires ForeignKeys(l)
    ensures Evolves(l, BeginPublish(l, a, artifact, head, authorized, publishable, seen).rows)
    ensures Evolves(l, Reconcile(l, op, seen).rows)
  {
    hide Evolves, StoreOutcome;
    Unchanged(l);
    var n := |l.publications|;
    if op < n { StoreOutcomeEvolves(l, op, if l.publications[op].state == Prepared then PublicationFailed else if seen then Confirmed else Unknown, None); }
    if n > 0 { StoreOutcomeEvolves(l, n - 1, if l.publications[n - 1].state == Prepared then PublicationFailed else if seen then Confirmed else Unknown, None); }
    if a < |l.attempts| {
      var expected := if n > 0 && l.publications[n - 1].state == Confirmed then Some(l.publications[n - 1].head) else None;
      PublicationAppended(l, Publication(a, artifact, head, expected, Prepared), Some(ToSend(n)));
    }
  }

  lemma PublicationAppended(l: Ledger, p: Publication, publisher: Option<Publisher>)
    ensures Evolves(l, l.(publications := l.publications + [p], publisher := publisher))
  {
    Unchanged(l);
  }

  lemma SendEvolves(l: Ledger, authorized: bool)
    requires ForeignKeys(l)
    ensures Evolves(l, OpenSendGate(l, authorized).rows)
  {
    hide Evolves, StoreOutcome;
    Unchanged(l);
    if l.publisher.Some? && l.publisher.value.ToSend? {
      var op := l.publisher.value.op;
      StoreOutcomeEvolves(l, op, PublicationFailed, None);
      PublisherEvolves(l, l, Some(ToCall(op)));
      if l.publications[op].state == Prepared {
        PublicationStored(l, op, Sent);
        PublisherEvolves(l, l.(publications := l.publications[op := l.publications[op].(state := Sent)]), Some(ToCall(op)));
      }
    }
  }

  lemma CallEvolves(l: Ledger, status: ReceiptStatus, issued: bool)
    requires ForeignKeys(l)
    ensures Evolves(l, CallPort(l).rows) && Evolves(l, ReturnPort(l, status, issued).rows)
    ensures Evolves(l, StoreReceipt(l).rows)
    ensures Evolves(l, Crash(l).rows)
  {
    hide Evolves, StoreOutcome;
    Unchanged(l);
    PublisherEvolves(l, l, None);
    if l.publisher.Some? {
      var p := l.publisher.value;
      if p.ToStore? { StoreOutcomeEvolves(l, p.op, Stored(p.status), None); }
      CallLogged(l, Left(p.op), Some(ToReturn(p.op)));
      CallLogged(l, Back(p.op, issued), Some(ToStore(p.op, status)));
    }
  }

  lemma ResolveEvolves(l: Ledger, op: nat, key: string, authorized: bool, attestation: Attestation)
    ensures Evolves(l, Resolve(l, op, key, authorized, attestation).rows)
  {
    hide Evolves;
    Unchanged(l);
    if op < |l.publications| && l.publications[op].state == Unknown {
      PublicationStored(l, op, PublicationFailed);
      ResolutionEvolves(l, l.(publications := l.publications[op := l.publications[op].(state := PublicationFailed)]), l.resolutions[key := Resolution(op, attestation.digest)]);
    }
  }

  lemma CallLogged(l: Ledger, call: PortCall, publisher: Option<Publisher>)
    ensures Evolves(l, l.(portCalls := l.portCalls + [call], publisher := publisher))
  {
    Unchanged(l);
  }

  lemma ResolutionEvolves(l: Ledger, m: Ledger, resolutions: map<string, Resolution>)
    requires Evolves(l, m)
    ensures Evolves(l, m.(resolutions := resolutions))
  {}

  lemma LifecycleEvolves(l: Ledger, op: Op, i: Incarnation, free: bool)
    requires ForeignKeys(l) && EndedHasResult(l) && Lifecycle(op)
    ensures Evolves(l, Perform(l, op, i, free).rows)
  {
    hide Evolves, Prepare, Reserve, Retire, RejectUnstarted, Claim, Start, Renew, Resume, Expire, SubmitStop, SubmitClaimBoundStop, CloseOrphan,
         Cancel, Recover, BeginResult, EndResult, BeginPublish, OpenSendGate, CallPort, ReturnPort, StoreReceipt, Crash, Reconcile, Resolve, FailPending;
    match op
    case PrepareSources(valid) => PrepareEvolves(l, valid);
    case ReserveSlot(route, incarnation, eligible, now) => ReserveEvolves(l, route, incarnation, i.slot, free, eligible && !i.signedOff, now);
    case RetireExpired(jobIdle, now) => RetirementEvolves(l, "", jobIdle, now);
    case RejectRequest(reason, jobIdle) => RetirementEvolves(l, reason, jobIdle, 0);
    case ClaimAttempt(incarnation, claimKey, authorized, eligible, now) => ClaimEvolves(l, incarnation, i, claimKey, free, authorized, eligible, now);
    case StartAttempt(a, scope, authorized, now, maxDuration) => StartEvolves(l, a, i, scope, authorized, now, maxDuration);
    case RenewAttempt(a, scopeId, authorized, now, maxDuration) => RenewEvolves(l, a, i, scopeId, authorized, now, maxDuration);
    case ResumeAttempt(a, scope, authorized, now, maxDuration) => ResumeEvolves(l, a, i, scope, authorized, now, maxDuration);
    case ExpireAttempt(a, now, maxDuration) => ExpireEvolves(l, a, now, maxDuration);
    case StopAttempt(a, authorized, observation) => SubmitStopEvolves(l, a, authorized, observation);
    case StopUnstarted(a, authorized, reason, digest, scopedEvidence, timely) => ClaimBoundEvolves(l, a, authorized, reason, digest, scopedEvidence, timely);
    case CloseSignedOff(a) => OrphanEvolves(l, a, i);
  }

  lemma OutcomeEvolves(l: Ledger, op: Op, i: Incarnation, free: bool)
    requires ForeignKeys(l) && EndedHasResult(l) && !Lifecycle(op)
    ensures Evolves(l, Perform(l, op, i, free).rows)
  {
    hide Evolves, Prepare, Reserve, Retire, RejectUnstarted, Claim, Start, Renew, Resume, Expire, SubmitStop, SubmitClaimBoundStop, CloseOrphan,
         Cancel, Recover, BeginResult, EndResult, BeginPublish, OpenSendGate, CallPort, ReturnPort, StoreReceipt, Crash, Reconcile, Resolve, FailPending;
    match op
    case CancelRequest(key, expectedVersion, authorized) => CancelEvolves(l, key, expectedVersion, authorized);
    case RecoverRequest(a, key, action, expectedVersion, evidence, mode, authorized, retryAllowed) =>
      RecoverEvolves(l, a, key, action, expectedVersion, evidence, mode, authorized, retryAllowed);
    case BeginCompletion(a, submitted, authorized, intact, failure) => BeginResultEvolves(l, a, submitted, authorized, intact, failure);
    case FailCompletion(submission, summary) => FailPendingEvolves(l, submission, summary);
    case EndCompletion(submission, authorized, publishable) => EndResultEvolves(l, submission, authorized, publishable);
    case BeginPublication(a, artifact, head, authorized, publishable, seen) => PublishingEvolves(l, a, artifact, head, authorized, publishable, seen, 0);
    case SendPublication(authorized) => SendEvolves(l, authorized);
    case PortCalled => CallEvolves(l, SaysUnknown, false);
    case PortReturned(status, issued) => CallEvolves(l, status, issued);
    case StorePublication => CallEvolves(l, SaysUnknown, false);
    case PublisherDied => CallEvolves(l, SaysUnknown, false);
    case ReconcilePublication(op, seen) => PublishingEvolves(l, 0, "", "", false, false, seen, op);
    case ResolvePublication(op, key, authorized, attestation) => ResolveEvolves(l, op, key, authorized, attestation);
  }

  // Every transaction evolves the rows, also outside the reachable states.
  lemma PerformEvolves(l: Ledger, op: Op, i: Incarnation, free: bool)
    requires ForeignKeys(l) && EndedHasResult(l)
    ensures Evolves(l, Perform(l, op, i, free).rows)
  {
    hide Evolves, Perform, EndedHasResult;
    if Lifecycle(op) { LifecycleEvolves(l, op, i, free); } else { OutcomeEvolves(l, op, i, free); }
  }

  lemma PrepareEvolves(l: Ledger, valid: bool)
    ensures Evolves(l, Prepare(l, valid).rows)
  {
    Unchanged(l);
  }

  lemma FailPendingEvolves(l: Ledger, s: Submission, summary: string)
    ensures Evolves(l, FailPending(l, s, summary).rows)
  {
    Unchanged(l);
  }
}
