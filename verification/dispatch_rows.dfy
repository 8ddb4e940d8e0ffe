// The rows the dispatch service keeps for one request, and the elementary row
// updates its transactions are built from.
//
// Every table is read and written by request id under that request's row lock,
// so one `Ledger` holds all rows of one request. The append-only event table is
// kept as one sequence per event type, because every query over it names a type.
module DispatchRows {
  import opened Options

  // The status column of a request, a candidate or an attempt.
  datatype Status =
    | Waiting | Reserved | Claimed | Running | Uncertain | CancelRequested
    | Succeeded | Failed | Cancelled
    | Retired | Finished

  datatype Error = Forbidden | Conflict | InvalidInput | IdempotencyConflict

  datatype Scope = Scope(scopeId: string, bootId: string, imageDigest: string, profileSha256: string)

  datatype Incarnation = Incarnation(slot: nat, bootId: string, imageDigest: string, profileSha256: string, signedOff: bool)

  datatype Route = Job | Host

  datatype Candidate = Candidate(route: Route, incarnation: Option<nat>, slot: nat, status: Status, claimed: bool, deadline: int)

  datatype Reservation = Reservation(slot: nat, released: bool)

  datatype Attempt = Attempt(
    candidate: nat, incarnation: nat, claimKey: string, status: Status,
    scopeId: Option<string>, startedAt: Option<int>, heartbeatAt: int, stopped: bool, revoked: bool)

  // `code` names the artifact of the result's code, if it has any.
  datatype Report = Report(outcome: Status, summary: string, body: string, code: Option<string>)

  datatype Result = Result(attempt: Option<nat>, report: Report)

  // One outbox row: the complete projection at one version.
  datatype Snapshot = Snapshot(version: nat, state: Status, reply: Option<Report>)

  datatype StartedScope = StartedScope(attempt: nat, scope: Scope)

  datatype StopKind = ContainerStopped | OperatorAttested | RuntimeRebooted | ClaimBound | SignedOffUnstarted

  datatype StopAccepted = StopAccepted(attempt: nat, kind: StopKind, digest: string)

  datatype RetryAuthorized = RetryAuthorized(oldAttempt: nat, generation: nat)

  datatype RetryConsumed = RetryConsumed(authorization: nat, attempt: nat)

  datatype ResultAccepted = ResultAccepted(attempt: nat, resultId: nat, submitted: Report)

  datatype LateResult = LateResult(attempt: nat, submitted: Report)

  datatype StartPermit = StartPermit(attempt: nat, incarnation: nat, scope: Scope)

  datatype PublicationState = Prepared | Sent | Confirmed | Unknown | PublicationFailed

  // What a publication receipt says, and the row state it is stored as.
  datatype ReceiptStatus = SaysConfirmed | SaysFailed | SaysUnknown

  function Stored(status: ReceiptStatus): PublicationState {
    match status
    case SaysConfirmed => Confirmed
    case SaysFailed => PublicationFailed
    case SaysUnknown => Unknown
  }

  datatype Publication = Publication(attempt: nat, artifact: string, head: string, expectedHead: Option<string>, state: PublicationState)

  // What an operator attests of a remote: the head of the branch there, and whether the rest of the statement is in order, which is
  // that it names this operation, was observed since it was prepared, and says what the operation's mode asks about pull requests.
  datatype Attestation = Attestation(digest: string, remoteHead: Option<string>, valid: bool)

  // What a remote shows of one operation as long as nobody changes it: the head of its branch, whether looking confirms the
  // operation, and whether there is a pull request that an attestation of the operation's mode would have to deny.
  datatype Sight = Sight(head: Option<string>, confirms: bool, pullFound: bool)

  datatype SightTells = Confirms | Lacks | Neither

  // Looking confirms the operation, or an operator can attest that the remote lacks it, or neither can be done.
  function Tells(sight: Sight, head: string): SightTells {
    if sight.confirms then Confirms else if sight.head != Some(head) && !sight.pullFound then Lacks else Neither
  }

  // The attestation says what the remote shows.
  predicate Truthful(a: Attestation, sight: Sight) { a.remoteHead == sight.head && (a.valid ==> !sight.pullFound) }

  // The operation an action key resolved, and by which attestation.
  datatype Resolution = Resolution(op: nat, digest: string)

  predicate ByAction(resolutions: map<string, Resolution>, op: nat) { exists k :: k in resolutions && resolutions[k].op == op }

  // The advisory lock of one request's publisher and what its holder does next.
  datatype Publisher = ToSend(op: nat) | ToCall(op: nat) | ToReturn(op: nat) | ToStore(op: nat, status: ReceiptStatus)

  // A call of the sending port leaves and comes back, unless its publisher dies meanwhile; `issued` says whether a push or a
  // pull-request create left the port.
  datatype PortCall = Left(op: nat) | Back(op: nat, issued: bool)

  // A result between the first and the last transaction of its acceptance.
  datatype Submission = Submission(attempt: nat, submitted: Report, report: Report)

  datatype Ledger = Ledger(
    state: Status, version: nat, generation: nat,
    sourcesReady: bool, firstClaimed: bool, retryAuthorization: Option<nat>, resultId: Option<nat>,
    candidates: seq<Candidate>, reservations: seq<Reservation>, attempts: seq<Attempt>,
    publications: seq<Publication>, results: seq<Result>, outbox: seq<Snapshot>,
    startedScopes: seq<StartedScope>, stops: seq<StopAccepted>,
    authorizations: seq<RetryAuthorized>, consumed: seq<RetryConsumed>,
    accepted: seq<ResultAccepted>, late: seq<LateResult>,
    cancelActions: map<string, nat>, recoveryActions: map<string, string>, resolutions: map<string, Resolution>,
    permits: seq<StartPermit>, portCalls: seq<PortCall>,
    publisher: Option<Publisher>, pending: multiset<Submission>)

  datatype Answer =
    | Done
    | Skipped
    | Refused(error: Error)
    | Lease(stopRequired: bool)
    | Permit(permit: StartPermit)
    | StopReceipt(stop: nat)
    | Receipt(accepted: bool, resultId: nat, report: Report)
    | Pending(submission: Submission)
    | Published(state: PublicationState)

  // What one transaction leaves behind: the committed rows and its answer.
  datatype Tx = Tx(rows: Ledger, answer: Answer)

  const LEASE_MS := 120_000
  const MAX_SCOPE_ID := 256

  predicate Terminal(s: Status) { s in {Succeeded, Failed, Cancelled} }

  predicate Live(s: Status) { s in {Claimed, Running, Uncertain, CancelRequested} }

  predicate Executing(s: Status) { s in {Claimed, Running, Uncertain} }

  predicate Unstarted(s: Status) { s in {Claimed, Uncertain, CancelRequested} }

  predicate Closed(c: Candidate) { c.status in {Retired, Finished} }

  predicate Resolved(p: Publication) { p.state in {Confirmed, PublicationFailed} }

  predicate Unresolved(publications: seq<Publication>) {
    exists i :: 0 <= i < |publications| && !Resolved(publications[i])
  }

  predicate HasStop(stops: seq<StopAccepted>, a: nat) {
    exists i :: 0 <= i < |stops| && stops[i].attempt == a
  }

  predicate HasStarted(started: seq<StartedScope>, a: nat) {
    exists i :: 0 <= i < |started| && started[i].attempt == a
  }

  // Exactly one started_scope event exists for the attempt and it names this scope.
  predicate RecordedScope(started: seq<StartedScope>, a: nat, scope: Scope) {
    exists i :: 0 <= i < |started| && started[i] == StartedScope(a, scope)
                && forall j :: 0 <= j < |started| && started[j].attempt == a ==> j == i
  }

  // Foreign keys: every index one row holds names a row that exists.
  predicate ForeignKeys(l: Ledger) {
    && |l.reservations| == |l.candidates|
    && l.generation <= |l.candidates|
    && (forall a :: 0 <= a < |l.attempts| ==> l.attempts[a].candidate < |l.candidates|)
    && (l.resultId.Some? ==> l.resultId.value < |l.results|)
    && (l.publisher.Some? ==> l.publisher.value.op < |l.publications|)
  }

  // The candidate row whose generation is the request's; rows are kept in generation order.
  function CurrentCandidate(l: Ledger): (c: Option<nat>)
    requires ForeignKeys(l)
    ensures c.Some? ==> c.value < |l.candidates| && c.value + 1 == l.generation
  {
    if l.generation == 0 then None else Some(l.generation - 1)
  }

  function OpenCandidate(l: Ledger): (c: Option<nat>)
    requires ForeignKeys(l)
    ensures c.Some? ==> c.value < |l.candidates| && c.value + 1 == l.generation && !Closed(l.candidates[c.value])
    ensures c.None? ==> l.generation == 0 || Closed(l.candidates[l.generation - 1])
  {
    var c := CurrentCandidate(l);
    if c.Some? && !Closed(l.candidates[c.value]) then c else None
  }

  // The attempt row of one candidate, if it has one.
  function AttemptOf(attempts: seq<Attempt>, c: nat): (a: Option<nat>)
    ensures a.Some? ==> a.value < |attempts| && attempts[a.value].candidate == c
    ensures a.None? ==> forall i :: 0 <= i < |attempts| ==> attempts[i].candidate != c
  {
    if |attempts| == 0 then None
    else if attempts[|attempts| - 1].candidate == c then Some(|attempts| - 1)
    else AttemptOf(attempts[..|attempts| - 1], c)
  }

  predicate Current(l: Ledger, a: nat)
    requires a < |l.attempts|
  {
    l.attempts[a].candidate + 1 == l.generation
  }

  function Refuse(l: Ledger, e: Error): Tx { Tx(l, Refused(e)) }

  /* ---- elementary row updates ---- */

  // Every state change raises the version and writes the outbox row of that version.
  function Transition(l: Ledger, next: Status, result: Option<nat>): Ledger
    requires result.Some? ==> result.value < |l.results|
    requires l.resultId.Some? ==> l.resultId.value < |l.results|
  {
    var id := if result.Some? then result else l.resultId;
    var reply := if id.Some? then Some(l.results[id.value].report) else None;
    l.(state := next, version := l.version + 1, resultId := id,
       outbox := l.outbox + [Snapshot(l.version + 1, next, reply)])
  }

  function SetAttempt(l: Ledger, a: nat, row: Attempt): Ledger
    requires a < |l.attempts|
  {
    l.(attempts := l.attempts[a := row])
  }

  function SetCandidate(l: Ledger, c: nat, row: Candidate): Ledger
    requires c < |l.candidates|
  {
    l.(candidates := l.candidates[c := row])
  }

  // Attempt, candidate and request move to one status together.
  function MoveTogether(l: Ledger, a: nat, row: Attempt): Ledger
    requires ForeignKeys(l) && a < |l.attempts| && l.attempts[a].candidate < |l.candidates|
  {
    var c := l.attempts[a].candidate;
    Transition(SetCandidate(SetAttempt(l, a, row), c, l.candidates[c].(status := row.status)), row.status, None)
  }

  function CloseCandidate(l: Ledger, c: nat, status: Status): Ledger
    requires c < |l.candidates| && |l.reservations| == |l.candidates|
  {
    l.(candidates := l.candidates[c := l.candidates[c].(status := status)],
       reservations := l.reservations[c := l.reservations[c].(released := true)])
  }

  // Retires the open candidate, if there is one.
  function RetireOpen(l: Ledger): Ledger
    requires ForeignKeys(l)
  {
    var open := OpenCandidate(l);
    if open.Some? then CloseCandidate(l, open.value, Retired) else l
  }

  function AcceptStop(l: Ledger, a: nat, kind: StopKind, digest: string): Ledger
    requires a < |l.attempts|
  {
    l.(stops := l.stops + [StopAccepted(a, kind, digest)],
       attempts := l.attempts[a := l.attempts[a].(stopped := true, revoked := true)])
  }
}
