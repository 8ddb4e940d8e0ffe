// The two operations that span several transactions, with everything else that may happen between their phases.
module DispatchFlows {
  import opened Options
  import opened DispatchRows
  import opened DispatchRules
  import opened DispatchInvariants
  import opened DispatchEvolution
  import opened DispatchFrames
  import opened DispatchSoundness
  import opened DispatchRuns
  import opened DispatchTheorems
  import opened DispatchOutcomes
  import opened DispatchService
  import opened DispatchDecisions
  import PublicationPort

  lemma RunOne(s: State, steps: seq<Step>, step: Step)
    ensures Run(s, steps + [step]) == Next(Run(s, steps), step)
  {
    hide Next;
    assert (steps + [step])[..|steps|] == steps;
  }

  // Whatever others do: their steps, one transaction each.
  method Others(service: Service, steps: seq<Step>, ghost before: State, ghost done: seq<Step>) returns (ghost all: seq<Step>)
    requires service.Value() == Run(before, done)
    modifies service
    ensures all == done + steps && service.Value() == Run(before, all)
    ensures old(service.Valid()) ==> service.Valid()
  {
    hide Next, Run, Consistent;
    all := done;
    for k := 0 to |steps|
      invariant all == done + steps[..k] && service.Value() == Run(before, all)
      invariant old(service.Valid()) ==> service.Valid()
    {
      RunOne(before, all, steps[k]);
      match steps[k] {
        case Submit(id) => var _ := service.InsertRequest(id);
        case Register(incarnation, row) => service.InsertIncarnation(incarnation, row);
        case Act(id, op) => var _ := service.Execute(id, op);
      }
      all := all + [steps[k]];
      assert done + steps[..k + 1] == done + steps[..k] + [steps[k]];
    }
    assert steps[..|steps|] == steps;
  }

  /* ---- accepting a result ---- */

  // The report the first transaction keeps of a submission, found in this state, and the one the last transaction stores of it.
  function Admitted(state: Status, submitted: Report, failure: Option<string>): Report {
    if state == CancelRequested then submitted.(outcome := Cancelled)
    else if submitted.outcome == Succeeded && failure.Some? then submitted.(outcome := Failed, summary := failure.value)
    else submitted
  }

  function Decided(state: Status, report: Report, publishable: bool): Report {
    if state == CancelRequested then report.(outcome := Cancelled)
    else if report.outcome == Succeeded && !publishable then report.(outcome := Failed, summary := "authorization_unavailable")
    else report
  }

  // A receipt carries the result that is stored, whoever stored it. One that this last phase stores is the pending one, cancelled if a
  // cancel came first and failed if authority is gone; and it is stored exactly when the attempt is still current, no publication is
  // open, and nothing but a cancel has stopped the request from running.
  lemma EndAnswers(l: Ledger, s: Submission, authorized: bool, publishable: bool)
    requires Sound(l) && ForeignKeys(l)
    ensures var t := EndResult(l, s, authorized, publishable);
            && (l.results == [] ==>
                  (t.answer.Receipt? <==> && s in l.pending && s.attempt < |l.attempts| && authorized && Current(l, s.attempt)
                                          && !Unresolved(l.publications) && l.state in {Claimed, Running, CancelRequested}))
            && (t.answer.Receipt? ==>
                  && |t.rows.results| == 1 && t.rows.results[0].report == t.answer.report && Terminal(t.rows.state)
                  && (l.results == [] ==> && t.answer == Receipt(true, 0, Decided(l.state, s.report, publishable)) && t.rows.state == t.answer.report.outcome
                                          && l.state in {Claimed, Running, CancelRequested} && s.attempt + 1 == |l.attempts|
                                          && (t.answer.report.outcome == Succeeded ==> l.state == Running)))
  {
    hide Inv, Kept, FinishResult, Unresolved;
    SoundKept(l);
    OneResult(l);
    if s in l.pending && s.attempt < |l.attempts| && l.results == [] && Current(l, s.attempt) && !Unresolved(l.publications) {
      PendingFacts(l, s);
      CurrentFacts(l, s.attempt);
      if l.state == CancelRequested { CancelAnswers(l, s); }
      else if l.state in {Claimed, Running} { RunningAnswers(l, s, publishable); }
    }
  }

  lemma OneResult(l: Ledger)
    requires Kept(l)
    ensures |l.results| <= 1 && (|l.results| == 0 <==> !Terminal(l.state))
  {
    hide Scopes, Outbox, Sending, PendingResults, Capacity, Attempted, Stops, Retries, Publications;
  }

  lemma CurrentFacts(l: Ledger, a: nat)
    requires Inv(l) && a < |l.attempts| && Current(l, a)
    ensures Live(l.state) ==> a + 1 == |l.attempts|
  {
    hide Inv;
    if Live(l.state) { CurrentIsLast(l, a); }
  }

  lemma CancelAnswers(l: Ledger, s: Submission)
    requires Inv(l) && l.state == CancelRequested && s.attempt < |l.attempts| && Current(l, s.attempt) && l.attempts[s.attempt].stopped && !Unresolved(l.publications)
    ensures var late, report := l.(late := l.late + [LateResult(s.attempt, s.submitted)]), s.report.(outcome := Cancelled);
            && ForeignKeys(late)
            && var t := FinishResult(late, s.attempt, report, s.submitted);
            t.answer == Receipt(true, 0, report) && t.rows.results == [Result(Some(s.attempt), report)] && t.rows.state == Cancelled
  {
    hide Inv, FinishResult, Unresolved;
    CurrentIsLast(l, s.attempt);
    LateRest(l, s);
    Keys(l.(late := l.late + [LateResult(s.attempt, s.submitted)]));
    FinishInv(l.(late := l.late + [LateResult(s.attempt, s.submitted)]), s.attempt, s.report.(outcome := Cancelled), s.submitted);
  }

  lemma RunningAnswers(l: Ledger, s: Submission, publishable: bool)
    requires Inv(l) && ForeignKeys(l) && l.state in {Claimed, Running} && s.attempt < |l.attempts| && Current(l, s.attempt)
    requires l.attempts[s.attempt].stopped && !Unresolved(l.publications) && Terminal(s.report.outcome)
    requires s.report.outcome == Succeeded ==> l.attempts[s.attempt].scopeId.Some?
    ensures s.report.outcome == Succeeded ==> l.state == Running
    ensures var report := if s.report.outcome == Succeeded && !publishable then s.report.(outcome := Failed, summary := "authorization_unavailable") else s.report;
            var t := FinishResult(l, s.attempt, report, s.submitted);
            t.answer == Receipt(true, 0, report) && t.rows.results == [Result(Some(s.attempt), report)] && t.rows.state == report.outcome
  {
    hide Inv, FinishResult, Unresolved;
    RunningSucceeds(l, s, publishable);
    CurrentIsLast(l, s.attempt);
    var report := if s.report.outcome == Succeeded && !publishable then s.report.(outcome := Failed, summary := "authorization_unavailable") else s.report;
    FinishInv(l, s.attempt, report, s.submitted);
  }

  // The first phase answers with a receipt of the stored result, refuses, or leaves a pending submission.
  lemma BeginAnswers(l: Ledger, a: nat, submitted: Report, authorized: bool, intact: bool, failure: Option<string>)
    requires Sound(l) && ForeignKeys(l)
    ensures var t := BeginResult(l, a, submitted, authorized, intact, failure);
            && (t.answer.Receipt? ==> l.results != [] && |t.rows.results| == 1 && t.rows.results[0].report == t.answer.report && Terminal(t.rows.state))
            && (t.answer.Pending? ==> && t.answer.submission == Submission(a, submitted, Admitted(l.state, submitted, failure))
                                      && t.rows == l.(pending := l.pending + multiset{t.answer.submission}))
            && (l.results == [] ==>
                  (t.answer.Pending? <==>
                     && a < |l.attempts| && authorized && intact && Terminal(submitted.outcome) && Current(l, a) && l.attempts[a].stopped
                     && (submitted.outcome == Succeeded ==> l.attempts[a].scopeId.Some?) && l.state != Uncertain))
            && !t.answer.Published?
  {
    hide Inv, Kept, HasStop, Unresolved;
    SoundKept(l);
    OneResult(l);
    if a < |l.attempts| { KeptFacts(l, a); }
  }

  lemma ReadyBegins(l: Ledger, a: nat, submitted: Report)
    requires Sound(l) && Ready(l, a, submitted)
    ensures ForeignKeys(l) && Current(l, a) && l.results == [] && l.attempts[a].scopeId.Some?
  {
    hide Inv, Kept, Unresolved;
    SoundKept(l);
    ReadyIsOpen(l, a);
    CurrentRow(l);
    RowFacts(l, a);
  }

  // The running request's newest attempt has stopped, no publication of it is open, and this may be its result.
  predicate Ready(l: Ledger, a: nat, submitted: Report) {
    l.state == Running && a + 1 == |l.attempts| && l.attempts[a].stopped && Terminal(submitted.outcome) && !Unresolved(l.publications)
  }

  // The rows a step leaves are those of its transaction.
  lemma ActedRows(s: State, id: nat, op: Op)
    requires id in s.ledgers && ForeignKeys(s.ledgers[id]) && !op.ReserveSlot? && !op.ClaimAttempt?
    ensures id in Next(s, Act(id, op)).ledgers && Speaker(s, s.ledgers[id], op).Some?
    ensures var i := Speaker(s, s.ledgers[id], op).value;
            var t := Perform(s.ledgers[id], op, i, SlotFree(s, i.slot));
            Next(s, Act(id, op)).ledgers[id] == t.rows && AnswerOf(s, Act(id, op)) == t.answer
  {
    hide Perform, ForeignKeys;
  }

  lemma Known(s: State, id: nat)
    requires Consistent(s) && id in s.ledgers
    ensures Sound(s.ledgers[id]) && Kept(s.ledgers[id]) && ForeignKeys(s.ledgers[id])
  {
    hide Sound, Kept, Exclusive, KeysUnique, Bound, OneIncarnation;
    SoundKept(s.ledgers[id]);
  }

  predicate StoredResult(s: State, id: nat, report: Report) {
    id in s.ledgers && |s.ledgers[id].results| == 1 && s.ledgers[id].results[0].report == report && Terminal(s.ledgers[id].state)
  }

  lemma FreshRun(s: State)
    ensures Run(s, []) == s
  {}

  lemma BeginOutcome(s: State, id: nat, a: nat, submitted: Report, authorized: bool, intact: bool, failure: Option<string>)
    requires Consistent(s)
    ensures var step := Act(id, BeginCompletion(a, submitted, authorized, intact, failure)); var t := Next(s, step);
            && !AnswerOf(s, step).Published?
            && (AnswerOf(s, step).Receipt? ==> id in s.ledgers && s.ledgers[id].results != [] && StoredResult(Next(s, step), id, AnswerOf(s, step).report))
            && (AnswerOf(s, step).Pending? ==>
                  && id in s.ledgers && id in t.ledgers
                  && var l, sub := s.ledgers[id], AnswerOf(s, step).submission;
                  sub == Submission(a, submitted, Admitted(l.state, submitted, failure)) && t.ledgers[id] == l.(pending := l.pending + multiset{sub}))
            && (id in s.ledgers && Ready(s.ledgers[id], a, submitted) && authorized && intact ==> AnswerOf(s, step).Pending?)
  {
    hide Sound, Kept, BeginResult, Consistent, Next, ForeignKeys, Ready, Admitted;
    NoRequest(s, Act(id, BeginCompletion(a, submitted, authorized, intact, failure)));
    if id in s.ledgers {
      Known(s, id);
      ActedRows(s, id, BeginCompletion(a, submitted, authorized, intact, failure));
      BeginAnswers(s.ledgers[id], a, submitted, authorized, intact, failure);
      if Ready(s.ledgers[id], a, submitted) {
        ReadyBegins(s.ledgers[id], a, submitted);
        ReadyShape(s.ledgers[id], a, submitted);
      }
    }
  }

  lemma ReadyShape(l: Ledger, a: nat, submitted: Report)
    requires Ready(l, a, submitted)
    ensures a < |l.attempts| && l.attempts[a].stopped && l.state == Running && Terminal(submitted.outcome)
  {
    hide Unresolved;
  }

  // The result that this last transaction would store is stored: the request, found in one of these states, ends with it.
  lemma EndOutcome(s: State, id: nat, sub: Submission, authorized: bool, publishable: bool)
    requires Consistent(s)
    ensures var step := Act(id, EndCompletion(sub, authorized, publishable));
            && (AnswerOf(s, step).Receipt? ==>
                  && StoredResult(Next(s, step), id, AnswerOf(s, step).report) && id in s.ledgers
                  && (s.ledgers[id].results == [] ==>
                        && var l := s.ledgers[id];
                        && AnswerOf(s, step) == Receipt(true, 0, Decided(l.state, sub.report, publishable))
                        && l.state in {Claimed, Running, CancelRequested} && sub.attempt + 1 == |l.attempts|
                        && (AnswerOf(s, step).report.outcome == Succeeded ==> l.state == Running)))
            && (id in s.ledgers && Ready(s.ledgers[id], sub.attempt, sub.submitted) && sub in s.ledgers[id].pending && authorized ==> AnswerOf(s, step).Receipt?)
  {
    hide Sound, Kept, EndResult, Consistent, Next, ForeignKeys, Decided, Unresolved;
    if id in s.ledgers {
      Known(s, id);
      ActedRows(s, id, EndCompletion(sub, authorized, publishable));
      EndAnswers(s.ledgers[id], sub, authorized, publishable);
      if Ready(s.ledgers[id], sub.attempt, sub.submitted) { ReadyIsOpen(s.ledgers[id], sub.attempt); }
    }
  }

  lemma ReadyIsOpen(l: Ledger, a: nat)
    requires Sound(l) && l.state == Running && a + 1 == |l.attempts|
    ensures ForeignKeys(l) && Current(l, a) && l.results == []
  {
    hide Inv, Kept;
    SoundKept(l);
    OneResult(l);
    NewestIsCurrent(l, a);
  }

  /* ---- publishing an artifact ---- */

  // Others may do anything but act as the process that holds this request's publisher lock.
  predicate LeavesLock(steps: seq<Step>, id: nat) { forall i :: 0 <= i < |steps| && steps[i].Act? && steps[i].id == id ==> !OfPublisher(steps[i].op) }

  // The publisher of the request stands here, after these calls of the port.
  predicate Publishing(s: State, id: nat, publisher: Publisher, calls: seq<PortCall>) {
    id in s.ledgers && s.ledgers[id].publisher == Some(publisher) && s.ledgers[id].portCalls == calls
  }

  lemma NextKeepsLock(s: State, step: Step, id: nat, publisher: Publisher, calls: seq<PortCall>)
    requires Publishing(s, id, publisher, calls) && (step.Act? && step.id == id ==> !OfPublisher(step.op))
    ensures Publishing(Next(s, step), id, publisher, calls)
  {
    hide Perform, ForeignKeys, SlotFree, KeySpent;
    if step.Act? && step.id == id && ForeignKeys(s.ledgers[id]) {
      var l := s.ledgers[id];
      var i := Speaker(s, l, step.op);
      if i.Some? { PerformHolds(l, step.op, i.value, SlotFree(s, i.value.slot)); }
    }
  }

  lemma PerformHolds(l: Ledger, op: Op, i: Incarnation, free: bool)
    requires ForeignKeys(l) && !OfPublisher(op)
    ensures var m := Perform(l, op, i, free).rows; Held(l, m) && m.portCalls == l.portCalls
  {
    hide Perform;
    if op.ReserveSlot? || op.ClaimAttempt? { ReservePermits(l, op, i, free); }
    else {
      PerformCounts(l, op, i, free);
      if op.StartAttempt? || op.EndCompletion? { LoudCalls(l, op, i, free); }
    }
  }

  lemma {:induction false} OthersKeepLock(s: State, done: seq<Step>, steps: seq<Step>, id: nat, publisher: Publisher, calls: seq<PortCall>)
    requires Publishing(Run(s, done), id, publisher, calls) && LeavesLock(steps, id)
    ensures Publishing(Run(s, done + steps), id, publisher, calls)
  {
    hide Next, Publishing;
    if |steps| == 0 {
      assert done + steps == done;
    } else {
      var shorter, last := steps[..|steps| - 1], steps[|steps| - 1];
      OthersKeepLock(s, done, shorter, id, publisher, calls);
      RunOne(s, done + shorter, last);
      assert done + steps == (done + shorter) + [last];
      NextKeepsLock(Run(s, done + shorter), last, id, publisher, calls);
    }
  }

  lemma BeginLocks(s: State, id: nat, op: Op)
    requires Consistent(s) && op.BeginPublication? && AnswerOf(s, Act(id, op)) == Done
    ensures id in s.ledgers
    ensures var n := |s.ledgers[id].publications|; Publishing(Next(s, Act(id, op)), id, ToSend(n), s.ledgers[id].portCalls)
  {
    hide Sound, Kept, Consistent, Next, ForeignKeys, BeginPublish;
    if id in s.ledgers {
      Known(s, id);
      ActedRows(s, id, op);
      DoneMeansPrepared(s.ledgers[id], op.a, op.artifact, op.head, op.authorized, op.publishable, op.seen);
    }
  }

  lemma DoneMeansPrepared(l: Ledger, a: nat, artifact: string, head: string, authorized: bool, publishable: bool, seen: bool)
    requires ForeignKeys(l)
    ensures var t := BeginPublish(l, a, artifact, head, authorized, publishable, seen);
            t.answer == Done ==> t.rows.publisher == Some(ToSend(|l.publications|)) && t.rows.portCalls == l.portCalls
  {
    hide StoreOutcome;
  }

  lemma GateOpens(s: State, id: nat, op: nat, authorized: bool, calls: seq<PortCall>)
    requires Consistent(s) && Publishing(s, id, ToSend(op), calls) && AnswerOf(s, Act(id, SendPublication(authorized))) == Done
    ensures Publishing(Next(s, Act(id, SendPublication(authorized))), id, ToCall(op), calls)
  {
    hide Sound, Kept, Consistent, Next, ForeignKeys, StoreOutcome;
    Known(s, id);
    ActedRows(s, id, SendPublication(authorized));
  }

  // After the gate the call of the port is recorded as it leaves.
  lemma CallIsRecorded(s: State, id: nat, op: nat, calls: seq<PortCall>)
    requires Consistent(s) && Publishing(s, id, ToCall(op), calls)
    ensures Publishing(Next(s, Act(id, PortCalled)), id, ToReturn(op), calls + [Left(op)])
  {
    hide Sound, Kept, Consistent, Next, ForeignKeys;
    Known(s, id);
    ActedRows(s, id, PortCalled);
  }

  // And so is its answer: it never fails an operation it sent something for.
  lemma PortIsRecorded(s: State, id: nat, op: nat, status: ReceiptStatus, issued: bool, calls: seq<PortCall>)
    requires Consistent(s) && Publishing(s, id, ToReturn(op), calls) && (status == SaysFailed ==> !issued)
    ensures Publishing(Next(s, Act(id, PortReturned(status, issued))), id, ToStore(op, status), calls + [Back(op, issued)])
  {
    hide Sound, Kept, Consistent, Next, ForeignKeys;
    Known(s, id);
    ActedRows(s, id, PortReturned(status, issued));
  }

  lemma ReceiptIsStored(s: State, id: nat, op: nat, status: ReceiptStatus, calls: seq<PortCall>)
    requires Consistent(s) && Publishing(s, id, ToStore(op, status), calls)
    ensures AnswerOf(s, Act(id, StorePublication)) == Published(Stored(status))
    ensures var t := Next(s, Act(id, StorePublication));
            && id in t.ledgers && t.ledgers[id].portCalls == calls && t.ledgers[id].publisher == None
            && op < |t.ledgers[id].publications| && t.ledgers[id].publications[op].state == Stored(status)
  {
    hide Sound, Kept, Consistent, Next;
    Known(s, id);
    ActedRows(s, id, StorePublication);
    PublisherIsSent(s.ledgers[id]);
  }

  // What the port's run tells the service: a throw is caught as unknown.
  function ReceiptOf(o: PublicationPort.Outcome): ReceiptStatus { if o.Said? then o.status else SaysUnknown }

  lemma PublisherIsSent(l: Ledger)
    requires Kept(l) && l.publisher.Some? && !l.publisher.value.ToSend?
    ensures l.publisher.value.op < |l.publications| && l.publications[l.publisher.value.op].state == Sent
  {
    hide Scopes, Results, Outbox, PendingResults, Capacity, Attempted, Stops, Retries, Publications;
  }

  // From the opened gate until the call has come back: what others do and what the publisher does.
  function Calling(second: seq<Step>, third: seq<Step>, id: nat, status: ReceiptStatus, issued: bool): seq<Step> {
    second + [Act(id, PortCalled)] + third + [Act(id, PortReturned(status, issued))]
  }

  lemma CallsBack(s: State, sent: seq<Step>, second: seq<Step>, third: seq<Step>, id: nat, op: nat, status: ReceiptStatus, issued: bool, calls: seq<PortCall>)
    requires Consistent(s) && Publishing(Run(s, sent), id, ToCall(op), calls) && LeavesLock(second, id) && LeavesLock(third, id)
    requires status == SaysFailed ==> !issued
    ensures Publishing(Run(s, sent + Calling(second, third, id, status, issued)), id, ToStore(op, status), calls + [Left(op), Back(op, issued)])
  {
    hide Consistent, Next, Run, Publishing, LeavesLock, AnswerOf, Sound, Kept;
    var leave, returned := Act(id, PortCalled), Act(id, PortReturned(status, issued));
    var waiting, away := sent + second, sent + second + [leave];
    RunConsistent(s, waiting);
    RunConsistent(s, away + third);
    OthersKeepLock(s, sent, second, id, ToCall(op), calls);
    CallIsRecorded(Run(s, waiting), id, op, calls);
    RunOne(s, waiting, leave);
    OthersKeepLock(s, away, third, id, ToReturn(op), calls + [Left(op)]);
    PortIsRecorded(Run(s, away + third), id, op, status, issued, calls + [Left(op)]);
    RunOne(s, away + third, returned);
    assert sent + Calling(second, third, id, status, issued) == away + third + [returned];
    assert calls + [Left(op)] + [Back(op, issued)] == calls + [Left(op), Back(op, issued)];
  }

  // From the opened gate on: the call is recorded once, as it leaves and as it comes back, behind everything the others did, and
  // its answer is stored as the state.
  lemma CalledAndStored(s: State, sent: seq<Step>, second: seq<Step>, third: seq<Step>, fourth: seq<Step>, id: nat, op: nat, status: ReceiptStatus,
                        issued: bool, calls: seq<PortCall>)
    requires Consistent(s) && Publishing(Run(s, sent), id, ToCall(op), calls) && LeavesLock(second, id) && LeavesLock(third, id) && LeavesLock(fourth, id)
    requires status == SaysFailed ==> !issued
    ensures var store, waited := Act(id, StorePublication), sent + Calling(second, third, id, status, issued) + fourth;
            var t := Run(s, waited + [store]);
            && AnswerOf(Run(s, waited), store) == Published(Stored(status))
            && id in t.ledgers && t.ledgers[id].portCalls == calls + [Left(op), Back(op, issued)]
            && op < |t.ledgers[id].publications| && t.ledgers[id].publications[op].state == Stored(status)
  {
    hide Consistent, Next, Run, Publishing, LeavesLock, AnswerOf, Sound, Kept, Calling;
    var back, all := sent + Calling(second, third, id, status, issued), calls + [Left(op), Back(op, issued)];
    CallsBack(s, sent, second, third, id, op, status, issued, calls);
    RunConsistent(s, back + fourth);
    OthersKeepLock(s, back, fourth, id, ToStore(op, status), all);
    ReceiptIsStored(Run(s, back + fourth), id, op, status, all);
    RunOne(s, back + fourth, Act(id, StorePublication));
  }

  // Up to the opened gate.
  lemma GateReached(s: State, begin: Op, first: seq<Step>, id: nat, authorized: bool)
    requires Consistent(s) && begin.BeginPublication? && AnswerOf(s, Act(id, begin)) == Done && LeavesLock(first, id)
    requires AnswerOf(Run(s, [Act(id, begin)] + first), Act(id, SendPublication(authorized))) == Done
    ensures id in s.ledgers
    ensures Publishing(Run(s, [Act(id, begin)] + first + [Act(id, SendPublication(authorized))]), id, ToCall(|s.ledgers[id].publications|), s.ledgers[id].portCalls)
  {
    hide Consistent, Next, Publishing, LeavesLock, AnswerOf, Sound, Kept;
    var send, begun := Act(id, SendPublication(authorized)), [Act(id, begin)];
    BeginLocks(s, id, begin);
    var op, calls := |s.ledgers[id].publications|, s.ledgers[id].portCalls;
    FreshRun(s);
    RunOne(s, [], Act(id, begin));
    assert [] + [Act(id, begin)] == begun;
    OthersKeepLock(s, begun, first, id, ToSend(op), calls);
    RunConsistent(s, begun + first);
    GateOpens(Run(s, begun + first), id, op, authorized, calls);
    RunOne(s, begun + first, send);
  }

  // Where an artifact goes: the branch, what it is based on, and what is asked of the remote; `wellFormed` says that its address is usable.
  datatype Target = Target(branch: string, base: string, baseSha: string, mode: PublicationPort.Mode, wellFormed: bool)

  // What is asked of the publisher for one artifact, and what others do between its phases.
  datatype Plan = Plan(head: string, target: Target, authorized: bool, publishable: bool, seen: bool,
                       first: seq<Step>, sendAuthorized: bool, second: seq<Step>, third: seq<Step>, fourth: seq<Step>)

  predicate Unlocked(plan: Plan, id: nat) { LeavesLock(plan.first, id) && LeavesLock(plan.second, id) && LeavesLock(plan.third, id) && LeavesLock(plan.fourth, id) }

  function BeginOf(plan: Plan, a: nat, artifact: string): Op {
    BeginPublication(a, artifact, plan.head, plan.authorized, plan.publishable, plan.seen)
  }

  // The operation a publication is answered from: the newest one if it is of this artifact or open, a new one otherwise.
  function AnsweringOp(l: Ledger, a: nat, artifact: string): nat {
    var n := |l.publications|;
    if n > 0 && ((l.publications[n - 1].attempt == a && l.publications[n - 1].artifact == artifact) || !Resolved(l.publications[n - 1])) then n - 1 else n
  }

  // The operation a new publication opens: it expects the head of the newest one, if that is confirmed, and otherwise no branch.
  function NewOperation(l: Ledger, a: nat, artifact: string, head: string): Publication {
    var n := |l.publications|;
    Publication(a, artifact, head, if n > 0 && l.publications[n - 1].state == Confirmed then Some(l.publications[n - 1].head) else None, Prepared)
  }

  // What the port is asked for on behalf of an operation.
  function IntentOf(target: Target, p: Publication): PublicationPort.Intent {
    PublicationPort.Intent(target.branch, target.base, target.baseSha, p.head, target.mode, p.expectedHead, target.wellFormed)
  }

  // The operation that answered a publication asked for in the rows l is, in the rows m, in this state.
  predicate AnsweredAs(l: Ledger, m: Ledger, a: nat, artifact: string, state: PublicationState) {
    AnsweringOp(l, a, artifact) < |m.publications| && m.publications[AnsweringOp(l, a, artifact)].state == state
  }

  // A new operation is opened: nobody else publishes, the running attempt has stopped, and no operation stands in its way.
  predicate Opens(l: Ledger, plan: Plan, a: nat, artifact: string) {
    && l.publisher.None? && plan.authorized && plan.publishable && l.state == Running && a + 1 == |l.attempts| && l.attempts[a].stopped
    && AnsweringOp(l, a, artifact) == |l.publications|
  }

  // An open operation of another artifact is reconciled in place of the artifact's own.
  predicate StandsIn(l: Ledger, artifact: string) {
    |l.publications| > 0 && !Resolved(l.publications[|l.publications| - 1]) && l.publications[|l.publications| - 1].artifact != artifact
  }

  // In the rows m, the operation that answered a publication asked for in the rows l is confirmed. It is of the newest attempt or of
  // this one, and it is of this artifact exactly when no other stood in.
  predicate Backed(l: Ledger, m: Ledger, a: nat, artifact: string) {
    var op := AnsweringOp(l, a, artifact);
    && a < |l.attempts| <= |m.attempts| && op < |m.publications| && m.publications[op].state == Confirmed
    && (m.publications[op].attempt == a || m.publications[op].attempt + 1 == |l.attempts|)
    && (m.publications[op].artifact == artifact <==> !StandsIn(l, artifact))
  }

  lemma AnsweredAtOnce(l: Ledger, plan: Plan, a: nat, artifact: string)
    requires Kept(l) && ForeignKeys(l)
    ensures var t := BeginPublish(l, a, artifact, plan.head, plan.authorized, plan.publishable, plan.seen);
            && !t.answer.Receipt?
            && (t.answer == Published(Confirmed) ==> Backed(l, t.rows, a, artifact))
            && (t.answer.Published? ==> AnsweredAs(l, t.rows, a, artifact, t.answer.state))
            && (t.answer == Done ==> a < |l.attempts| && !StandsIn(l, artifact) && AnsweringOp(l, a, artifact) == |l.publications|
                                     && t.rows == l.(publications := l.publications + [NewOperation(l, a, artifact, plan.head)], publisher := Some(ToSend(|l.publications|))))
  {
    hide Scopes, Results, Outbox, PendingResults, Capacity, Attempted, Stops, Retries, Sending;
  }

  lemma BeginBacks(s: State, id: nat, plan: Plan, a: nat, artifact: string)
    requires Consistent(s)
    ensures var step := Act(id, BeginOf(plan, a, artifact)); var t := Next(s, step);
            && !AnswerOf(s, step).Receipt?
            && (AnswerOf(s, step) == Published(Confirmed) ==> id in s.ledgers && id in t.ledgers && Backed(s.ledgers[id], t.ledgers[id], a, artifact))
            && (AnswerOf(s, step).Published? ==>
                  id in s.ledgers && id in t.ledgers && AnsweredAs(s.ledgers[id], t.ledgers[id], a, artifact, AnswerOf(s, step).state))
            && (AnswerOf(s, step) == Done ==>
                  && id in s.ledgers && id in t.ledgers && a < |s.ledgers[id].attempts| && !StandsIn(s.ledgers[id], artifact)
                  && var l, n := s.ledgers[id], |s.ledgers[id].publications|;
                  && AnsweringOp(l, a, artifact) == n
                  && t.ledgers[id] == l.(publications := l.publications + [NewOperation(l, a, artifact, plan.head)], publisher := Some(ToSend(n))))
  {
    hide Sound, Kept, Consistent, Next, ForeignKeys, BeginPublish, Backed, StandsIn, AnsweringOp, AnsweredAs, NewOperation, AnswerOf;
    NoRequest(s, Act(id, BeginOf(plan, a, artifact)));
    if id in s.ledgers {
      Known(s, id);
      ActedRows(s, id, BeginOf(plan, a, artifact));
      AnsweredAtOnce(s.ledgers[id], plan, a, artifact);
    }
  }

  lemma NoRequest(s: State, step: Step)
    requires step.Act?
    ensures step.id !in s.ledgers ==> AnswerOf(s, step) == Skipped
  {}

  // A publication keeps its target, and once resolved stays as it is.
  lemma TargetStays(l: Ledger, m: Ledger, op: nat)
    requires Evolves(l, m) && op < |l.publications|
    ensures op < |m.publications| && |l.attempts| <= |m.attempts|
    ensures m.publications[op] == l.publications[op].(state := m.publications[op].state)
    ensures Resolved(l.publications[op]) ==> m.publications[op] == l.publications[op]
  {
    hide AttemptEvolves, CandidatesEvolve, ReservationsEvolve, PermitsEvolve, HistoriesGrow;
    assert PublicationEvolves(l.publications[op], m.publications[op]);
  }

  lemma BackedStays(l: Ledger, m: Ledger, n: Ledger, a: nat, artifact: string)
    requires Backed(l, m, a, artifact) && Evolves(m, n)
    ensures Backed(l, n, a, artifact)
  {
    hide Evolves, AnsweringOp, StandsIn;
    TargetStays(m, n, AnsweringOp(l, a, artifact));
  }

  lemma AnsweredStays(l: Ledger, m: Ledger, n: Ledger, a: nat, artifact: string, state: PublicationState)
    requires AnsweredAs(l, m, a, artifact, state) && state in {Confirmed, PublicationFailed} && Evolves(m, n)
    ensures AnsweredAs(l, n, a, artifact, state)
  {
    hide Evolves, AnsweringOp, StandsIn;
    TargetStays(m, n, AnsweringOp(l, a, artifact));
  }

  // The rows of the operation that was opened, whatever follows.
  lemma OpenedStays(s: State, steps: seq<Step>, id: nat, plan: Plan, a: nat, artifact: string)
    requires Consistent(s) && AnswerOf(s, Act(id, BeginOf(plan, a, artifact))) == Done
    ensures id in s.ledgers && id in Run(s, [Act(id, BeginOf(plan, a, artifact))] + steps).ledgers
    ensures var l, m := s.ledgers[id], Run(s, [Act(id, BeginOf(plan, a, artifact))] + steps).ledgers[id];
            var op := |l.publications|;
            && a < |l.attempts| <= |m.attempts| && !StandsIn(l, artifact) && AnsweringOp(l, a, artifact) == op && op < |m.publications|
            && m.publications[op] == NewOperation(l, a, artifact, plan.head).(state := m.publications[op].state)
  {
    hide Consistent, Next, AnswerOf, Evolves, Sound, StandsIn, AnsweringOp, NewOperation;
    var begun := [Act(id, BeginOf(plan, a, artifact))];
    BeginBacks(s, id, plan, a, artifact);
    FreshRun(s);
    RunOne(s, [], begun[0]);
    assert [] + begun == begun;
    RunSplit(s, begun, steps);
    RunConsistent(s, begun);
    Evolution(Run(s, begun), steps, id);
    TargetStays(Run(s, begun).ledgers[id], Run(s, begun + steps).ledgers[id], |s.ledgers[id].publications|);
  }

  // The steps of one publication up to the opened gate, and up to its last transaction.
  function Opening(plan: Plan, id: nat, a: nat, artifact: string): seq<Step> {
    [Act(id, BeginOf(plan, a, artifact))] + plan.first + [Act(id, SendPublication(plan.sendAuthorized))]
  }

  function Waiting(plan: Plan, id: nat, a: nat, artifact: string, status: ReceiptStatus, issued: bool): seq<Step> {
    Opening(plan, id, a, artifact) + Calling(plan.second, plan.third, id, status, issued) + plan.fourth
  }

  // Both transactions before the port went through: the operation is opened, and marked as sent.
  predicate GateOpened(s: State, id: nat, plan: Plan, a: nat, artifact: string) {
    && AnswerOf(s, Act(id, BeginOf(plan, a, artifact))) == Done
    && AnswerOf(Run(s, [Act(id, BeginOf(plan, a, artifact))] + plan.first), Act(id, SendPublication(plan.sendAuthorized))) == Done
  }

  // A publication that reached its port ends with the call on record and the answer stored.
  lemma Publishes(s: State, id: nat, plan: Plan, a: nat, artifact: string, status: ReceiptStatus, issued: bool)
    requires Consistent(s) && Unlocked(plan, id) && GateOpened(s, id, plan, a, artifact) && (status == SaysFailed ==> !issued)
    ensures id in s.ledgers
    ensures var waited, op := Waiting(plan, id, a, artifact, status, issued), |s.ledgers[id].publications|;
            var t := Run(s, waited + [Act(id, StorePublication)]);
            && AnswerOf(Run(s, waited), Act(id, StorePublication)) == Published(Stored(status))
            && id in t.ledgers && t.ledgers[id].portCalls == s.ledgers[id].portCalls + [Left(op), Back(op, issued)]
            && op < |t.ledgers[id].publications|
            && t.ledgers[id].publications[op] == NewOperation(s.ledgers[id], a, artifact, plan.head).(state := Stored(status))
            && AnsweredAs(s.ledgers[id], t.ledgers[id], a, artifact, Stored(status))
            && (status == SaysConfirmed ==> Backed(s.ledgers[id], t.ledgers[id], a, artifact))
  {
    hide Consistent, Next, Run, Publishing, LeavesLock, AnswerOf, Sound, Kept, Calling, AnsweringOp, StandsIn;
    GateReached(s, BeginOf(plan, a, artifact), plan.first, id, plan.sendAuthorized);
    CalledAndStored(s, Opening(plan, id, a, artifact), plan.second, plan.third, plan.fourth, id, |s.ledgers[id].publications|, status, issued, s.ledgers[id].portCalls);
    var all := Waiting(plan, id, a, artifact, status, issued) + [Act(id, StorePublication)];
    assert all == [Act(id, BeginOf(plan, a, artifact))] + all[1..];
    OpenedStays(s, all[1..], id, plan, a, artifact);
  }

  predicate StillRuns(s: State, id: nat) { id in s.ledgers && s.ledgers[id].state == Running }

  // The gate opens exactly for an operation that is opened for a stopped, running attempt with authority, and still runs when it is
  // to be sent; an operation that was opened and is not sent has failed.
  lemma GateDecides(s: State, id: nat, plan: Plan, a: nat, artifact: string)
    requires Consistent(s) && Unlocked(plan, id)
    ensures var begun := Run(s, [Act(id, BeginOf(plan, a, artifact))] + plan.first);
            && (GateOpened(s, id, plan, a, artifact) <==>
                  id in s.ledgers && Opens(s.ledgers[id], plan, a, artifact) && plan.sendAuthorized && StillRuns(begun, id))
            && (AnswerOf(s, Act(id, BeginOf(plan, a, artifact))) == Done <==> id in s.ledgers && Opens(s.ledgers[id], plan, a, artifact))
            && (AnswerOf(s, Act(id, BeginOf(plan, a, artifact))) == Done ==>
                  && id in begun.ledgers
                  && (!GateOpened(s, id, plan, a, artifact) ==>
                        && AnswerOf(begun, Act(id, SendPublication(plan.sendAuthorized))) == Published(PublicationFailed)
                        && id in Run(s, Opening(plan, id, a, artifact)).ledgers
                        && AnsweredAs(s.ledgers[id], Run(s, Opening(plan, id, a, artifact)).ledgers[id], a, artifact, PublicationFailed)))
  {
    hide Consistent, Next, Run, LeavesLock, AnswerOf, Sound, Kept, AnsweringOp, StandsIn, Opens, ForeignKeys;
    BeginDecides(s, id, plan, a, artifact);
    if AnswerOf(s, Act(id, BeginOf(plan, a, artifact))) == Done {
      var step, op, calls := Act(id, BeginOf(plan, a, artifact)), |s.ledgers[id].publications|, s.ledgers[id].portCalls;
      BeginLocks(s, id, BeginOf(plan, a, artifact));
      FreshRun(s);
      RunOne(s, [], step);
      assert [] + [step] == [step];
      OthersKeepLock(s, [step], plan.first, id, ToSend(op), calls);
      RunConsistent(s, [step] + plan.first);
      SendDecides(Run(s, [step] + plan.first), id, op, plan.sendAuthorized, calls);
      RunOne(s, [step] + plan.first, Act(id, SendPublication(plan.sendAuthorized)));
      OpenedStays(s, plan.first + [Act(id, SendPublication(plan.sendAuthorized))], id, plan, a, artifact);
      assert Opening(plan, id, a, artifact) == [step] + (plan.first + [Act(id, SendPublication(plan.sendAuthorized))]);
    }
  }

  lemma BeginDecides(s: State, id: nat, plan: Plan, a: nat, artifact: string)
    requires Consistent(s)
    ensures AnswerOf(s, Act(id, BeginOf(plan, a, artifact))) == Done <==> id in s.ledgers && Opens(s.ledgers[id], plan, a, artifact)
  {
    hide Sound, Kept, Consistent, Next, ForeignKeys, BeginPublish, Opens, AnswerOf;
    NoRequest(s, Act(id, BeginOf(plan, a, artifact)));
    if id in s.ledgers {
      Known(s, id);
      ActedRows(s, id, BeginOf(plan, a, artifact));
      OpensExactly(s.ledgers[id], plan, a, artifact);
    }
  }

  lemma OpensExactly(l: Ledger, plan: Plan, a: nat, artifact: string)
    requires Sound(l) && ForeignKeys(l)
    ensures BeginPublish(l, a, artifact, plan.head, plan.authorized, plan.publishable, plan.seen).answer == Done <==> Opens(l, plan, a, artifact)
  {
    hide Inv, Kept, StoreOutcome;
    SoundKept(l);
    if a < |l.attempts| && l.state == Running { NewestIsCurrent(l, a); }
  }

  lemma SendDecides(s: State, id: nat, op: nat, authorized: bool, calls: seq<PortCall>)
    requires Consistent(s) && Publishing(s, id, ToSend(op), calls)
    ensures var step := Act(id, SendPublication(authorized)); var t := Next(s, step);
            && id in t.ledgers && op < |t.ledgers[id].publications|
            && (AnswerOf(s, step) == Done <==> authorized && s.ledgers[id].state == Running)
            && (AnswerOf(s, step) != Done ==> AnswerOf(s, step) == Published(PublicationFailed) && t.ledgers[id].publications[op].state == PublicationFailed)
  {
    hide Sound, Kept, Consistent, Next, ForeignKeys;
    Known(s, id);
    ActedRows(s, id, SendPublication(authorized));
    PublisherPrepared(s.ledgers[id]);
  }

  lemma PublisherPrepared(l: Ledger)
    requires Kept(l) && l.publisher.Some? && l.publisher.value.ToSend?
    ensures l.publisher.value.op < |l.publications| && l.publications[l.publisher.value.op].state == Prepared
  {
    hide Scopes, Results, Outbox, PendingResults, Capacity, Attempted, Stops, Retries, Publications;
  }

  // Publishes one artifact under the request's publisher lock: prepared, sent, called, stored, while others act in between. The
  // gate opens exactly when the attempt may publish. Behind it the remote gets the head the operation names, over the head it
  // expects, and the call and its answer are on record: confirmed exactly when everything on the way succeeds, failed exactly when
  // something fails with nothing sent, and unknown otherwise. Where the gate stays closed the remote is not touched. What is answered is
  // the state of the operation that answers: of this artifact, unless an open one of another stood in.
  method PublishArtifact(service: Service, id: nat, a: nat, artifact: string, plan: Plan, remote: PublicationPort.Remote, w: PublicationPort.World)
    returns (answer: Answer, ghost steps: seq<Step>, ghost status: ReceiptStatus)
    requires service.Valid() && Unlocked(plan, id)
    modifies service, remote
    ensures service.Valid() && service.Value() == Run(old(service.Value()), steps)
    ensures |steps| > 0 && steps[0] == Act(id, BeginOf(plan, a, artifact)) && !answer.Receipt?
    ensures answer == AnswerOf(Run(old(service.Value()), steps[..|steps| - 1]), steps[|steps| - 1])
    ensures GateOpened(old(service.Value()), id, plan, a, artifact) <==>
              && id in old(service.ledgers) && Opens(old(service.ledgers)[id], plan, a, artifact) && plan.sendAuthorized
              && StillRuns(Run(old(service.Value()), [Act(id, BeginOf(plan, a, artifact))] + plan.first), id)
    ensures GateOpened(old(service.Value()), id, plan, a, artifact) ==>
              && id in old(service.ledgers) && id in service.ledgers
              && var l, m, issued := old(service.ledgers)[id], service.ledgers[id], remote.pushes > old(remote.pushes) || remote.creates > old(remote.creates);
              var op, x := |l.publications|, IntentOf(plan.target, NewOperation(l, a, artifact, plan.head));
              && steps == Waiting(plan, id, a, artifact, status, issued) + [Act(id, StorePublication)] && answer == Published(Stored(status))
              && op < |m.publications| && m.publications[op] == NewOperation(l, a, artifact, plan.head).(state := Stored(status))
              && m.portCalls == l.portCalls + [Left(op), Back(op, issued)]
              && (status == SaysConfirmed <==> PublicationPort.Succeeds(x, old(remote.head), w))
              && (status == SaysFailed <==> PublicationPort.FailsUnsent(x, old(remote.head), w))
              && (remote.pushes == old(remote.pushes) + if PublicationPort.Pushes(x, old(remote.head), w) then 1 else 0)
              && (remote.creates == old(remote.creates) + if PublicationPort.Creates(x, old(remote.head), w) then 1 else 0)
              && (status == SaysConfirmed && plan.target.baseSha != plan.head ==> remote.head == Some(plan.head))
    ensures !GateOpened(old(service.Value()), id, plan, a, artifact) ==>
              && remote.pushes == old(remote.pushes) && remote.creates == old(remote.creates) && remote.head == old(remote.head) && remote.pulls == old(remote.pulls)
              && steps == if AnswerOf(old(service.Value()), steps[0]) == Done then Opening(plan, id, a, artifact) else [steps[0]]
    ensures answer.Published? ==>
              id in old(service.ledgers) && id in service.ledgers && AnsweredAs(old(service.ledgers)[id], service.ledgers[id], a, artifact, answer.state)
    ensures answer == Published(Confirmed) ==> Backed(old(service.ledgers)[id], service.ledgers[id], a, artifact)
  {
    hide Next, Run, Consistent, AnswerOf, Stale, Sound, Kept, Publishing, LeavesLock, Backed, AnsweredAs, Opens, NewOperation, GateOpened, StillRuns,
         PublicationPort.Matching, PublicationPort.Healthy, PublicationPort.SeenWhole, PublicationPort.Steady, PublicationPort.Shown,
         PublicationPort.Confirmable, PublicationPort.SightOf, PublicationPort.Succeeds, PublicationPort.FailsUnsent, PublicationPort.Pushes,
         PublicationPort.Creates, Tells, Opening, Waiting;
    ghost var before := service.Value();
    var intent: Option<PublicationPort.Intent>;
    status := SaysUnknown;
    GateDecides(before, id, plan, a, artifact);
    answer, intent, steps := OpenGate(service, id, a, artifact, plan);
    if answer != Done { return; }
    steps := Depart(service, id, plan.second, before, steps);
    steps := Others(service, plan.third, before, steps);
    var pushes, creates := remote.pushes, remote.creates;
    var o := PublicationPort.Publish(intent.value, true, remote, w);
    var issued := remote.pushes != pushes || remote.creates != creates;
    status := ReceiptOf(o);
    PublicationSteps(plan, id, a, artifact, status, issued);
    Publishes(before, id, plan, a, artifact, status, issued);
    OpensFor(before.ledgers[id], a, artifact, plan);
    answer, steps := StoreAnswer(service, id, ReceiptOf(o), issued, plan.fourth, before, steps);
    assert steps[..|steps| - 1] == Waiting(plan, id, a, artifact, status, issued);
  }

  lemma OpensFor(l: Ledger, a: nat, artifact: string, plan: Plan)
    ensures IntentOf(plan.target, NewOperation(l, a, artifact, plan.head)).headSha == plan.head
    ensures IntentOf(plan.target, NewOperation(l, a, artifact, plan.head)).baseSha == plan.target.baseSha
  {}

  lemma PublicationSteps(plan: Plan, id: nat, a: nat, artifact: string, status: ReceiptStatus, issued: bool)
    ensures Opening(plan, id, a, artifact) + plan.second + [Act(id, PortCalled)] + plan.third + [Act(id, PortReturned(status, issued))] + plan.fourth
         == Waiting(plan, id, a, artifact, status, issued)
  {}

  // The call of the port leaves.
  method Depart(service: Service, id: nat, second: seq<Step>, ghost before: State, ghost done: seq<Step>) returns (ghost steps: seq<Step>)
    requires service.Valid() && service.Value() == Run(before, done)
    modifies service
    ensures service.Valid() && service.Value() == Run(before, steps) && steps == done + second + [Act(id, PortCalled)]
  {
    hide Next, Run, Consistent, AnswerOf, Stale;
    steps := Others(service, second, before, done);
    RunOne(before, steps, Act(id, PortCalled));
    var _ := service.Execute(id, PortCalled);
    steps := steps + [Act(id, PortCalled)];
  }

  // The port's answer is recorded and then stored.
  method StoreAnswer(service: Service, id: nat, status: ReceiptStatus, issued: bool, fourth: seq<Step>, ghost before: State, ghost done: seq<Step>)
    returns (answer: Answer, ghost steps: seq<Step>)
    requires service.Valid() && service.Value() == Run(before, done)
    modifies service
    ensures service.Valid() && service.Value() == Run(before, steps)
    ensures var waited := done + [Act(id, PortReturned(status, issued))] + fourth;
            steps == waited + [Act(id, StorePublication)] && answer == AnswerOf(Run(before, waited), Act(id, StorePublication))
  {
    hide Next, Run, Consistent, AnswerOf, Stale;
    RunOne(before, done, Act(id, PortReturned(status, issued)));
    answer := service.Execute(id, PortReturned(status, issued));
    steps := Others(service, fourth, before, done + [Act(id, PortReturned(status, issued))]);
    RunOne(before, steps, Act(id, StorePublication));
    answer := service.Execute(id, StorePublication);
    steps := steps + [Act(id, StorePublication)];
  }

  // The first two transactions of a publication, up to the durable send gate, and what the port is to be asked for.
  method OpenGate(service: Service, id: nat, a: nat, artifact: string, plan: Plan)
    returns (answer: Answer, intent: Option<PublicationPort.Intent>, ghost steps: seq<Step>)
    requires service.Valid() && Unlocked(plan, id)
    modifies service
    ensures service.Valid() && service.Value() == Run(old(service.Value()), steps)
    ensures |steps| > 0 && steps[0] == Act(id, BeginOf(plan, a, artifact)) && !answer.Receipt?
    ensures answer == AnswerOf(Run(old(service.Value()), steps[..|steps| - 1]), steps[|steps| - 1])
    ensures steps == if AnswerOf(old(service.Value()), steps[0]) == Done then Opening(plan, id, a, artifact) else [steps[0]]
    ensures answer == Done <==> GateOpened(old(service.Value()), id, plan, a, artifact)
    ensures answer == Done ==>
              id in old(service.ledgers) && intent == Some(IntentOf(plan.target, NewOperation(old(service.ledgers)[id], a, artifact, plan.head)))
    ensures answer.Published? ==>
              id in old(service.ledgers) && id in service.ledgers && AnsweredAs(old(service.ledgers)[id], service.ledgers[id], a, artifact, answer.state)
    ensures answer == Published(Confirmed) ==> Backed(old(service.ledgers)[id], service.ledgers[id], a, artifact)
  {
    hide Next, Run, Consistent, AnswerOf, Stale, Sound, Kept, LeavesLock, Backed, AnsweredAs, NewOperation, Opens, AnsweringOp, StandsIn;
    ghost var before := service.Value();
    var begin := BeginOf(plan, a, artifact);
    intent := None;
    FreshRun(before);
    RunOne(before, [], Act(id, begin));
    BeginBacks(before, id, plan, a, artifact);
    GateDecides(before, id, plan, a, artifact);
    answer := service.Execute(id, begin);
    steps := [Act(id, begin)];
    assert [] + steps == steps && steps[..0] == [];
    if answer != Done { return; }
    var rows := service.ledgers[id].publications;
    intent := Some(IntentOf(plan.target, rows[|rows| - 1]));
    steps := Others(service, plan.first, before, steps);
    RunOne(before, steps, Act(id, SendPublication(plan.sendAuthorized)));
    answer := service.Execute(id, SendPublication(plan.sendAuthorized));
    ghost var earlier := steps;
    steps := steps + [Act(id, SendPublication(plan.sendAuthorized))];
    assert steps[..|steps| - 1] == earlier;
  }

  /* ---- when nobody else acts on the request ---- */

  // None of these steps acts on this request.
  predicate Elsewhere(steps: seq<Step>, id: nat) { forall i :: 0 <= i < |steps| && steps[i].Act? ==> steps[i].id != id }

  predicate QuietPlan(plan: Plan, id: nat) { Elsewhere(plan.first, id) && Elsewhere(plan.second, id) && Elsewhere(plan.third, id) && Elsewhere(plan.fourth, id) }

  lemma {:induction false} ElsewhereKeeps(s: State, done: seq<Step>, steps: seq<Step>, id: nat)
    requires id in Run(s, done).ledgers && Elsewhere(steps, id)
    ensures id in Run(s, done + steps).ledgers && Run(s, done + steps).ledgers[id] == Run(s, done).ledgers[id]
  {
    hide Next;
    if |steps| == 0 {
      assert done + steps == done;
    } else {
      var shorter, last := steps[..|steps| - 1], steps[|steps| - 1];
      ElsewhereKeeps(s, done, shorter, id);
      RunOne(s, done + shorter, last);
      assert done + steps == (done + shorter) + [last];
      NextElsewhere(Run(s, done + shorter), last, id);
    }
  }

  lemma NextElsewhere(s: State, step: Step, id: nat)
    requires id in s.ledgers && (step.Act? ==> step.id != id)
    ensures id in Next(s, step).ledgers && Next(s, step).ledgers[id] == s.ledgers[id]
  {
    hide Perform, ForeignKeys, SlotFree, KeySpent;
  }

  // Steps elsewhere, and then one transaction of this request's publisher: the rows are those of this transaction alone.
  lemma ActsAlone(s: State, done: seq<Step>, between: seq<Step>, id: nat, op: Op, m: Ledger)
    requires Consistent(s) && id in Run(s, done).ledgers && Elsewhere(between, id) && OfPublication(op)
    requires ForeignKeys(Run(s, done).ledgers[id]) ==> Perform(Run(s, done).ledgers[id], op, Nobody, false).rows == m
    ensures id in Run(s, done + between + [Act(id, op)]).ledgers && Run(s, done + between + [Act(id, op)]).ledgers[id] == m
  {
    hide Next, Perform, Consistent, SlotFree, ForeignKeys;
    ElsewhereKeeps(s, done, between, id);
    RunConsistent(s, done + between);
    Known(Run(s, done + between), id);
    RunOne(s, done + between, Act(id, op));
    ActedRows(Run(s, done + between), id, op);
    ForNobody(Run(s, done + between), id, op);
  }

  // A publication's transactions speak for no incarnation, and ask for no slot.
  lemma ForNobody(s: State, id: nat, op: Op)
    requires id in s.ledgers && ForeignKeys(s.ledgers[id]) && OfPublication(op)
    ensures Speaker(s, s.ledgers[id], op) == Some(Nobody)
    ensures forall free :: Perform(s.ledgers[id], op, Nobody, free) == Perform(s.ledgers[id], op, Nobody, false)
  {
    hide ForeignKeys, Prepare, Reserve, Retire, RejectUnstarted, Claim, Start, Renew, Resume, Expire, SubmitStop, SubmitClaimBoundStop, CloseOrphan,
         Cancel, Recover, BeginResult, EndResult, BeginPublish, OpenSendGate, CallPort, ReturnPort, StoreReceipt, Crash, Reconcile, Resolve, FailPending;
  }

  // The rows of a publication nobody interferes with, once its operation is opened, sent, called, back, and stored.
  function Underway(l: Ledger, p: Publication, state: PublicationState, calls: seq<PortCall>, publisher: Option<Publisher>): Ledger {
    l.(publications := l.publications + [p.(state := state)], portCalls := l.portCalls + calls, publisher := publisher)
  }

  lemma PublisherPerforms(l: Ledger, authorized: bool, status: ReceiptStatus, issued: bool)
    requires ForeignKeys(l)
    ensures Perform(l, SendPublication(authorized), Nobody, false) == OpenSendGate(l, authorized)
    ensures Perform(l, PortCalled, Nobody, false) == CallPort(l) && Perform(l, PortReturned(status, issued), Nobody, false) == ReturnPort(l, status, issued)
    ensures Perform(l, StorePublication, Nobody, false) == StoreReceipt(l)
  {
    hide ForeignKeys, OpenSendGate, CallPort, ReturnPort, StoreReceipt;
  }

  // Each transaction of the publisher takes the rows one stage further.
  lemma Stages(l: Ledger, p: Publication, status: ReceiptStatus, issued: bool)
    requires ForeignKeys(l) && l.state == Running && p.state == Prepared && (status == SaysFailed ==> !issued)
    ensures var n, calls := |l.publications|, [Left(|l.publications|), Back(|l.publications|, issued)];
            var begun, sent := Underway(l, p, Prepared, [], Some(ToSend(n))), Underway(l, p, Sent, [], Some(ToCall(n)));
            var called := Underway(l, p, Sent, [Left(n)], Some(ToReturn(n)));
            var back, stored := Underway(l, p, Sent, calls, Some(ToStore(n, status))), Underway(l, p, Stored(status), calls, None);
            && (ForeignKeys(begun) ==> OpenSendGate(begun, true).rows == sent) && CallPort(sent).rows == called && ReturnPort(called, status, issued).rows == back
            && (ForeignKeys(back) ==> StoreReceipt(back).rows == stored)
  {
    SentNext(l, p);
    StoredNext(l, p, status, issued);
    assert l.portCalls + [] + [Left(|l.publications|)] == l.portCalls + [Left(|l.publications|)];
    assert l.portCalls + [Left(|l.publications|)] + [Back(|l.publications|, issued)] == l.portCalls + [Left(|l.publications|), Back(|l.publications|, issued)];
    hide OpenSendGate, StoreReceipt, ForeignKeys;
  }

  lemma SentNext(l: Ledger, p: Publication)
    requires l.state == Running && p.state == Prepared
    ensures var begun := Underway(l, p, Prepared, [], Some(ToSend(|l.publications|)));
            ForeignKeys(begun) ==> OpenSendGate(begun, true).rows == Underway(l, p, Sent, [], Some(ToCall(|l.publications|)))
  {
    assert (l.publications + [p])[|l.publications| := p.(state := Sent)] == l.publications + [p.(state := Sent)];
  }

  lemma StoredNext(l: Ledger, p: Publication, status: ReceiptStatus, issued: bool)
    ensures var calls := [Left(|l.publications|), Back(|l.publications|, issued)];
            var back := Underway(l, p, Sent, calls, Some(ToStore(|l.publications|, status)));
            ForeignKeys(back) ==> StoreReceipt(back).rows == Underway(l, p, Stored(status), calls, None)
  {
    assert (l.publications + [p.(state := Sent)])[|l.publications| := p.(state := Stored(status))] == l.publications + [p.(state := Stored(status))];
  }

  // One transaction of the publisher behind steps elsewhere.
  lemma PublisherAlone(s: State, done: seq<Step>, between: seq<Step>, id: nat, op: Op)
    requires Consistent(s) && id in Run(s, done).ledgers && Elsewhere(between, id)
    requires op == SendPublication(true) || op.PortCalled? || op.PortReturned? || op.StorePublication?
    ensures ForeignKeys(Run(s, done).ledgers[id]) && id in Run(s, done + between + [Act(id, op)]).ledgers
    ensures var l, m := Run(s, done).ledgers[id], Run(s, done + between + [Act(id, op)]).ledgers[id];
            m == if op.SendPublication? then OpenSendGate(l, true).rows
                 else if op.PortCalled? then CallPort(l).rows
                 else if op.PortReturned? then ReturnPort(l, op.status, op.issued).rows
                 else StoreReceipt(l).rows
  {
    hide Run, Next, Perform, Consistent, Sound, Kept, ForeignKeys, OpenSendGate, CallPort, ReturnPort, StoreReceipt;
    RunConsistent(s, done);
    Known(Run(s, done), id);
    var l := Run(s, done).ledgers[id];
    var status, issued := if op.PortReturned? then op.status else SaysUnknown, if op.PortReturned? then op.issued else false;
    PublisherPerforms(l, true, status, issued);
    ActsAlone(s, done, between, id, op, Perform(l, op, Nobody, false).rows);
  }

  // A publication that nobody interferes with goes through, and leaves everything else of the request as it was.
  lemma QuietPublication(s: State, id: nat, plan: Plan, a: nat, artifact: string, status: ReceiptStatus, issued: bool)
    requires Consistent(s) && id in s.ledgers && Opens(s.ledgers[id], plan, a, artifact) && QuietPlan(plan, id) && plan.sendAuthorized
    requires status == SaysFailed ==> !issued
    ensures StillRuns(Run(s, [Act(id, BeginOf(plan, a, artifact))] + plan.first), id)
    ensures var t, l := Run(s, Waiting(plan, id, a, artifact, status, issued) + [Act(id, StorePublication)]), s.ledgers[id];
            && id in t.ledgers
            && t.ledgers[id] == Underway(l, NewOperation(l, a, artifact, plan.head), Stored(status), [Left(|l.publications|), Back(|l.publications|, issued)], None)
  {
    hide Run, Next, Consistent, Sound, Kept, Opens, AnswerOf, Stored, Elsewhere, OpenSendGate, CallPort, ReturnPort, StoreReceipt, NewOperation, Waiting, Calling, ForeignKeys;
    var l := s.ledgers[id];
    var p, begin := NewOperation(l, a, artifact, plan.head), [Act(id, BeginOf(plan, a, artifact))];
    RunsWhenOpened(l, plan, a, artifact);
    Known(s, id);
    BeginDecides(s, id, plan, a, artifact);
    BeginBacks(s, id, plan, a, artifact);
    FreshRun(s);
    RunOne(s, [], begin[0]);
    assert [] + begin == begin;
    Stages(l, p, status, issued);
    assert Run(s, begin).ledgers[id] == Underway(l, p, Prepared, [], Some(ToSend(|l.publications|))) by { assert l.portCalls + [] == l.portCalls; }
    ElsewhereKeeps(s, begin, plan.first, id);
    PublisherAlone(s, begin, plan.first, id, SendPublication(true));
    var sent := begin + plan.first + [Act(id, SendPublication(true))];
    PublisherAlone(s, sent, plan.second, id, PortCalled);
    var called := sent + plan.second + [Act(id, PortCalled)];
    PublisherAlone(s, called, plan.third, id, PortReturned(status, issued));
    var back := called + plan.third + [Act(id, PortReturned(status, issued))];
    PublisherAlone(s, back, plan.fourth, id, StorePublication);
    assert back + plan.fourth == Waiting(plan, id, a, artifact, status, issued) by { PublicationSteps(plan, id, a, artifact, status, issued); }
  }

  lemma RunsWhenOpened(l: Ledger, plan: Plan, a: nat, artifact: string)
    requires Opens(l, plan, a, artifact)
    ensures l.state == Running && NewOperation(l, a, artifact, plan.head).state == Prepared
  {}

  /* ---- accepting a result, publication included ---- */

  // The last of these steps found no result yet.
  predicate StoredBy(s: State, steps: seq<Step>, id: nat) {
    |steps| > 0 && var prior := Run(s, steps[..|steps| - 1]); id in prior.ledgers && prior.ledgers[id].results == []
  }

  // Publication was asked for after the first `asked` of these steps, and after all of them the operation that answered is confirmed:
  // one of this attempt, and of this artifact exactly when no other stood in.
  predicate Grounded(s: State, steps: seq<Step>, asked: nat, id: nat, a: nat, artifact: string) {
    && asked < |steps| && id in Run(s, steps[..asked]).ledgers && id in Run(s, steps).ledgers
    && var l, m := Run(s, steps[..asked]).ledgers[id], Run(s, steps).ledgers[id];
    var op := AnsweringOp(l, a, artifact);
    && op < |m.publications| && m.publications[op].state == Confirmed && m.publications[op].attempt == a
    && (m.publications[op].artifact == artifact <==> !StandsIn(l, artifact))
  }

  lemma Grounds(s: State, there: seq<Step>, later: seq<Step>, end: Step, asked: nat, id: nat, a: nat, artifact: string)
    requires Consistent(s) && asked <= |there| && id in Run(s, there[..asked]).ledgers && id in Run(s, there).ledgers
    requires Backed(Run(s, there[..asked]).ledgers[id], Run(s, there).ledgers[id], a, artifact)
    requires id in Run(s, there + later).ledgers && a + 1 == |Run(s, there + later).ledgers[id].attempts|
    ensures Grounded(s, there + later + [end], asked, id, a, artifact)
  {
    hide Next, Run, Consistent, Sound, Evolves, StandsIn, AnsweringOp;
    var l, now := Run(s, there[..asked]).ledgers[id], Run(s, there + later);
    RunSplit(s, there, later);
    RunConsistent(s, there);
    Evolution(Run(s, there), later, id);
    BackedStays(l, Run(s, there).ledgers[id], now.ledgers[id], a, artifact);
    RunSplit(s, there + later, [end]);
    RunConsistent(s, there + later);
    Evolution(now, [end], id);
    BackedStays(l, now.ledgers[id], Run(s, there + later + [end]).ledgers[id], a, artifact);
    TargetStays(now.ledgers[id], Run(s, there + later + [end]).ledgers[id], AnsweringOp(l, a, artifact));
    assert (there + later + [end])[..asked] == there[..asked];
  }

  // An operation that has failed grounds nothing.
  lemma NeverGrounds(s: State, there: seq<Step>, later: seq<Step>, asked: nat, id: nat, a: nat, artifact: string)
    requires Consistent(s) && asked <= |there| && id in Run(s, there[..asked]).ledgers && id in Run(s, there).ledgers
    requires AnsweredAs(Run(s, there[..asked]).ledgers[id], Run(s, there).ledgers[id], a, artifact, PublicationFailed)
    ensures !Grounded(s, there + later, asked, id, a, artifact)
  {
    hide Next, Run, Consistent, Sound, Evolves, StandsIn, AnsweringOp;
    var l := Run(s, there[..asked]).ledgers[id];
    RunSplit(s, there, later);
    RunConsistent(s, there);
    Evolution(Run(s, there), later, id);
    AnsweredStays(l, Run(s, there).ledgers[id], Run(s, there + later).ledgers[id], a, artifact, PublicationFailed);
    assert (there + later)[..asked] == there[..asked];
  }

  // A cancel that has been requested stays the last word as long as there is no result.
  lemma CancelStays(s: State, steps: seq<Step>, id: nat)
    requires Consistent(s) && id in s.ledgers && s.ledgers[id].state == CancelRequested
    ensures id in Run(s, steps).ledgers && (Run(s, steps).ledgers[id].results == [] ==> Run(s, steps).ledgers[id].state == CancelRequested)
  {
    hide Next, Run, Consistent, Sound, Kept, AttemptsEvolve, CandidatesEvolve, ReservationsEvolve, PublicationsEvolve, PermitsEvolve, HistoriesGrow;
    Evolution(s, steps, id);
    SoundKept(Run(s, steps).ledgers[id]);
    OneResult(Run(s, steps).ledgers[id]);
  }

  // The pending result becomes a failure.
  method Downgrade(service: Service, id: nat, s: Submission, summary: string, ghost before: State, ghost done: seq<Step>)
    returns (failed: Submission, ghost steps: seq<Step>)
    requires service.Valid() && service.Value() == Run(before, done)
    modifies service
    ensures service.Valid() && service.Value() == Run(before, steps) && steps == done + [Act(id, FailCompletion(s, summary))]
    ensures failed == s.(report := s.report.(outcome := Failed, summary := summary))
  {
    hide Next, Run, Consistent, AnswerOf, Stale;
    RunOne(before, done, Act(id, FailCompletion(s, summary)));
    var _ := service.Execute(id, FailCompletion(s, summary));
    steps := done + [Act(id, FailCompletion(s, summary))];
    failed := s.(report := s.report.(outcome := Failed, summary := summary));
  }

  // The submission asks for its code to be published.
  predicate Asks(s: Submission, plan: Option<Plan>) { plan.Some? && s.report.code.Some? && s.report.outcome == Succeeded }

  // Nothing of the request changed but its publications, all of which are resolved.
  predicate OnlyPublished(l: Ledger, m: Ledger) {
    m.state == l.state && m.attempts == l.attempts && m.pending == l.pending && (!Unresolved(l.publications) ==> !Unresolved(m.publications))
  }

  // Nobody interferes, and the publication has everything it needs to succeed.
  predicate PublishesWell(l: Ledger, plan: Plan, id: nat, a: nat, artifact: string, head: Option<string>, w: PublicationPort.World) {
    && QuietPlan(plan, id) && Opens(l, plan, a, artifact) && plan.sendAuthorized
    && PublicationPort.Succeeds(IntentOf(plan.target, NewOperation(l, a, artifact, plan.head)), head, w)
  }

  lemma PublishedWell(l: Ledger, p: Publication, calls: seq<PortCall>)
    ensures OnlyPublished(l, Underway(l, p, Confirmed, calls, None))
  {
    var ps := l.publications + [p.(state := Confirmed)];
    forall i | 0 <= i < |ps| && !Resolved(ps[i]) ensures !Resolved(l.publications[i]) && i < |l.publications| {}
  }

  lemma WellPublished(s: State, id: nat, plan: Plan, a: nat, artifact: string, head: Option<string>, w: PublicationPort.World, issued: bool)
    requires Consistent(s) && id in s.ledgers && PublishesWell(s.ledgers[id], plan, id, a, artifact, head, w)
    ensures Opens(s.ledgers[id], plan, a, artifact) && plan.sendAuthorized && StillRuns(Run(s, [Act(id, BeginOf(plan, a, artifact))] + plan.first), id)
    ensures PublicationPort.Succeeds(IntentOf(plan.target, NewOperation(s.ledgers[id], a, artifact, plan.head)), head, w)
    ensures var t := Run(s, Waiting(plan, id, a, artifact, SaysConfirmed, issued) + [Act(id, StorePublication)]);
            id in t.ledgers && OnlyPublished(s.ledgers[id], t.ledgers[id])
  {
    hide Next, Run, Consistent, Opens, NewOperation, StillRuns, QuietPlan, OnlyPublished, Waiting, Underway, PublicationPort.Succeeds;
    var l := s.ledgers[id];
    QuietPublication(s, id, plan, a, artifact, SaysConfirmed, issued);
    PublishedWell(l, NewOperation(l, a, artifact, plan.head), [Left(|l.publications|), Back(|l.publications|, issued)]);
  }

  // The publication a submission asks for. It goes on as it is once its operation is confirmed, as a failure once it has failed, and not
  // at all while it is neither.
  method PublishIfAsked(service: Service, id: nat, s: Submission, plan: Option<Plan>, remote: PublicationPort.Remote, w: PublicationPort.World,
                        ghost before: State, ghost done: seq<Step>)
    returns (answer: Answer, next: Submission, goesOn: bool, ghost steps: seq<Step>)
    requires service.Valid() && Consistent(before) && service.Value() == Run(before, done) && (plan.Some? ==> Unlocked(plan.value, id))
    modifies service, remote
    ensures service.Valid() && service.Value() == Run(before, steps) && done <= steps
    ensures !Asks(s, plan) ==> goesOn && next == s && steps == done && remote.pushes == old(remote.pushes) && remote.creates == old(remote.creates)
    ensures Asks(s, plan) && goesOn ==>
              id in Run(before, done).ledgers && id in Run(before, steps).ledgers && CameTo(Run(before, done).ledgers[id], Run(before, steps).ledgers[id], s, next)
    ensures !goesOn ==> && Asks(s, plan) && !answer.Receipt? && answer !in {Published(Confirmed), Published(PublicationFailed)} && |done| < |steps|
                        && answer == AnswerOf(Run(before, steps[..|steps| - 1]), steps[|steps| - 1])
    ensures Asks(s, plan) && id in Run(before, done).ledgers
            && PublishesWell(Run(before, done).ledgers[id], plan.value, id, s.attempt, s.report.code.value, old(remote.head), w) ==>
              && goesOn && next == s && id in Run(before, steps).ledgers && OnlyPublished(Run(before, done).ledgers[id], Run(before, steps).ledgers[id])
  {
    hide Next, Run, Consistent, AnswerOf, Stale, Sound, Kept, Backed, AnsweredAs, GateOpened, StandsIn, AnsweringOp, LeavesLock, Opens, NewOperation, StillRuns, QuietPlan,
         PublishesWell, OnlyPublished, Waiting, Opening, PublicationPort.Succeeds, PublicationPort.FailsUnsent, PublicationPort.Pushes, PublicationPort.Creates;
    answer, next, goesOn, steps := Done, s, true, done;
    if !(plan.Some? && s.report.code.Some? && s.report.outcome == Succeeded) { return; }
    var a, artifact := s.attempt, s.report.code.value;
    ghost var at := service.Value();
    ghost var published: seq<Step>;
    ghost var status: ReceiptStatus;
    answer, published, status := PublishArtifact(service, id, a, artifact, plan.value, remote, w);
    RunSplit(before, done, published);
    steps := done + published;
    LastOf(before, done, published);
    if id in at.ledgers && PublishesWell(at.ledgers[id], plan.value, id, a, artifact, old(remote.head), w) {
      WellPublished(at, id, plan.value, a, artifact, old(remote.head), w, remote.pushes > old(remote.pushes) || remote.creates > old(remote.creates));
    }
    if answer == Published(PublicationFailed) {
      ghost var there := steps;
      next, steps := Downgrade(service, id, s, "publication_failed", before, steps);
      FailedStays(before, done, there, Act(id, FailCompletion(s, "publication_failed")), id, a, artifact);
    } else if answer != Published(Confirmed) {
      goesOn := false;
    }
  }

  lemma LastOf(s: State, done: seq<Step>, steps: seq<Step>)
    requires |steps| > 0
    ensures (done + steps)[..|done + steps| - 1] == done + steps[..|steps| - 1]
    ensures Run(s, (done + steps)[..|done + steps| - 1]) == Run(Run(s, done), steps[..|steps| - 1])
  {
    hide Next, Run;
    assert (done + steps)[..|done + steps| - 1] == done + steps[..|steps| - 1];
    RunSplit(s, done, steps[..|steps| - 1]);
  }

  lemma FailedStays(s: State, done: seq<Step>, there: seq<Step>, step: Step, id: nat, a: nat, artifact: string)
    requires Consistent(s) && id in Run(s, done).ledgers && id in Run(s, there).ledgers
    requires AnsweredAs(Run(s, done).ledgers[id], Run(s, there).ledgers[id], a, artifact, PublicationFailed)
    ensures id in Run(s, there + [step]).ledgers && AnsweredAs(Run(s, done).ledgers[id], Run(s, there + [step]).ledgers[id], a, artifact, PublicationFailed)
  {
    hide Next, Run, Consistent, Sound, Evolves, AnsweredAs;
    RunSplit(s, there, [step]);
    RunConsistent(s, there);
    Evolution(Run(s, there), [step], id);
    AnsweredStays(Run(s, done).ledgers[id], Run(s, there).ledgers[id], Run(s, there + [step]).ledgers[id], a, artifact, PublicationFailed);
  }

  // The last transaction found the request open, with this attempt its newest, and stored what it decides of the submission.
  predicate ConcludedBy(prior: Ledger, s: Submission, publishable: bool, answer: Answer) {
    && answer == Receipt(true, 0, Decided(prior.state, s.report, publishable)) && prior.state in {Claimed, Running, CancelRequested}
    && s.attempt + 1 == |prior.attempts| && (answer.report.outcome == Succeeded ==> prior.state == Running)
  }

  // The last transaction of a pending result, after whatever else happens.
  method Conclude(service: Service, id: nat, s: Submission, later: seq<Step>, authorized: bool, publishable: bool, ghost before: State, ghost there: seq<Step>)
    returns (answer: Answer, ghost steps: seq<Step>)
    requires service.Valid() && Consistent(before) && service.Value() == Run(before, there)
    modifies service
    ensures service.Valid() && service.Value() == Run(before, steps) && steps == there + later + [Act(id, EndCompletion(s, authorized, publishable))]
    ensures answer == AnswerOf(Run(before, there + later), Act(id, EndCompletion(s, authorized, publishable)))
    ensures answer.Receipt? ==> StoredResult(service.Value(), id, answer.report)
    ensures var prior := Run(before, there + later);
            answer.Receipt? && id in prior.ledgers && prior.ledgers[id].results == [] ==> ConcludedBy(prior.ledgers[id], s, publishable, answer)
    ensures old(id in service.ledgers && Ready(service.ledgers[id], s.attempt, s.submitted) && s in service.ledgers[id].pending) && Elsewhere(later, id) && authorized ==>
              answer == Receipt(true, 0, Decided(Running, s.report, publishable))
  {
    hide Next, Run, Consistent, AnswerOf, Stale, Sound, Kept, Elsewhere, Unresolved, Decided;
    steps := Others(service, later, before, there);
    RunOne(before, steps, Act(id, EndCompletion(s, authorized, publishable)));
    EndOutcome(service.Value(), id, s, authorized, publishable);
    if id in Run(before, there).ledgers && Elsewhere(later, id) {
      ElsewhereKeeps(before, there, later, id);
      if Ready(Run(before, there).ledgers[id], s.attempt, s.submitted) {
        RunConsistent(before, steps);
        OpenWhenReady(service.Value(), id, s.attempt);
      }
    }
    answer := service.Execute(id, EndCompletion(s, authorized, publishable));
    steps := steps + [Act(id, EndCompletion(s, authorized, publishable))];
  }

  lemma OpenWhenReady(s: State, id: nat, a: nat)
    requires Consistent(s) && id in s.ledgers && s.ledgers[id].state == Running && a + 1 == |s.ledgers[id].attempts|
    ensures s.ledgers[id].results == []
  {
    hide Consistent, Sound;
    Known(s, id);
    ReadyIsOpen(s.ledgers[id], a);
  }

  // What an accepted submission becomes. It is stored as a success exactly when it is one, every check passes, authority still stands,
  // the request still runs and whatever had to be published is published; a success is stored as submitted, and so is a failure or a
  // cancellation that failed no check, unless a cancel came first, which makes any submission a cancelled one. A success that is none
  // fails for the last of its foreign and first checks, its publication and its authority that stood against it.
  predicate Verdict(state: Status, submitted: Report, failure: Option<string>, foreign: Option<string>, publishable: bool, published: bool, report: Report) {
    && (report.outcome == Succeeded <==>
          submitted.outcome == Succeeded && failure.None? && foreign.None? && publishable && state == Running && published)
    && (report.outcome == Succeeded ==> report == submitted)
    && (state == CancelRequested ==> report.outcome == Cancelled)
    && (state != CancelRequested && submitted.outcome != Succeeded && foreign.None? ==> report == submitted)
    && (state != CancelRequested && submitted.outcome == Succeeded && report.outcome != Succeeded ==>
          report == submitted.(outcome := Failed, summary := if foreign.Some? then foreign.value else if failure.Some? then failure.value
                                                             else if published then "authorization_unavailable" else "publication_failed"))
    && report.code == submitted.code
  }

  lemma VerdictFollows(begun: Status, state: Status, submitted: Report, failure: Option<string>, foreign: Option<string>, publishable: bool, published: bool,
                       admitted: Report, checked: Report, report: Report)
    requires (begun == CancelRequested ==> state == CancelRequested) && state in {Claimed, Running, CancelRequested}
    requires admitted == Admitted(begun, submitted, failure)
    requires checked == (if foreign.Some? then admitted.(outcome := Failed, summary := foreign.value) else admitted)
    requires report == Decided(state, if published || checked.outcome != Succeeded then checked else checked.(outcome := Failed, summary := "publication_failed"), publishable)
    requires report.outcome == Succeeded ==> state == Running
    ensures Verdict(state, submitted, failure, foreign, publishable, published, report)
  {}

  // What the foreign checks leave of a submission the first transaction admitted.
  function Checked(begun: Status, a: nat, submitted: Report, failure: Option<string>, foreign: Option<string>): Submission {
    var admitted := Admitted(begun, submitted, failure);
    Submission(a, submitted, if foreign.Some? then admitted.(outcome := Failed, summary := foreign.value) else admitted)
  }

  // The publication a checked submission asked for came to this.
  predicate CameTo(l: Ledger, m: Ledger, checked: Submission, next: Submission)
    requires checked.report.code.Some?
  {
    if next == checked then Backed(l, m, checked.attempt, checked.report.code.value)
    else next == checked.(report := checked.report.(outcome := Failed, summary := "publication_failed"))
         && AnsweredAs(l, m, checked.attempt, checked.report.code.value, PublicationFailed)
  }

  lemma Judged(s: State, begun: Status, done: seq<Step>, there: seq<Step>, later: seq<Step>, end: Step, id: nat, a: nat, submitted: Report,
               failure: Option<string>, foreign: Option<string>, publishable: bool, plan: Option<Plan>, next: Submission, answer: Answer)
    requires Consistent(s) && done <= there && id in Run(s, there + later).ledgers
    requires var checked := Checked(begun, a, submitted, failure, foreign);
             if Asks(checked, plan) then id in Run(s, done).ledgers && id in Run(s, there).ledgers && CameTo(Run(s, done).ledgers[id], Run(s, there).ledgers[id], checked, next)
             else next == checked
    requires ConcludedBy(Run(s, there + later).ledgers[id], next, publishable, answer)
    requires begun == CancelRequested ==> Run(s, there + later).ledgers[id].state == CancelRequested
    ensures var prior := Run(s, there + later).ledgers[id];
            && answer.Receipt? && answer.accepted && a + 1 == |prior.attempts| && prior.state in {Claimed, Running, CancelRequested}
            && Verdict(prior.state, submitted, failure, foreign, publishable,
                       plan.Some? && submitted.code.Some? ==> Grounded(s, there + later + [end], |done|, id, a, submitted.code.value), answer.report)
  {
    hide Run, Next, Consistent, Backed, AnsweredAs, Grounded, Admitted, Decided, Verdict;
    var checked, prior := Checked(begun, a, submitted, failure, foreign), Run(s, there + later).ledgers[id];
    Codes(begun, submitted, failure);
    assert there[..|done|] == done;
    if Asks(checked, plan) {
      if next == checked { Grounds(s, there, later, end, |done|, id, a, submitted.code.value); }
      else {
        NeverGrounds(s, there, later + [end], |done|, id, a, submitted.code.value);
        assert there + (later + [end]) == there + later + [end];
      }
    }
    var published := plan.Some? && submitted.code.Some? ==> Grounded(s, there + later + [end], |done|, id, a, submitted.code.value);
    VerdictFollows(begun, prior.state, submitted, failure, foreign, publishable, published, Admitted(begun, submitted, failure), checked.report, answer.report);
  }

  lemma Codes(state: Status, submitted: Report, failure: Option<string>)
    ensures Admitted(state, submitted, failure).code == submitted.code
  {}

  // The first transaction of a result, what others do, and the foreign checks.
  method AdmitAndCheck(service: Service, id: nat, a: nat, submitted: Report, authorized: bool, intact: bool, failure: Option<string>,
                       meanwhile: seq<Step>, foreign: Option<string>)
    returns (answer: Answer, s: Submission, ghost steps: seq<Step>)
    requires service.Valid()
    modifies service
    ensures service.Valid() && service.Value() == Run(old(service.Value()), steps)
    ensures |steps| > 0 && steps[0] == Act(id, BeginCompletion(a, submitted, authorized, intact, failure)) && answer == AnswerOf(old(service.Value()), steps[0])
    ensures !answer.Pending? ==> |steps| == 1 && (answer.Receipt? ==> StoredResult(service.Value(), id, answer.report)) && !answer.Published?
    ensures answer.Receipt? ==> id in old(service.ledgers) && old(service.ledgers)[id].results != []
    ensures answer.Pending? ==> id in old(service.ledgers) && s == Checked(old(service.ledgers)[id].state, a, submitted, failure, foreign)
    ensures id in old(service.ledgers) && Ready(old(service.ledgers)[id], a, submitted) && authorized && intact && foreign.None? && Elsewhere(meanwhile, id) ==>
              answer.Pending? && id in service.ledgers && service.ledgers[id] == old(service.ledgers)[id].(pending := old(service.ledgers)[id].pending + multiset{s})
  {
    hide Next, Run, Consistent, AnswerOf, Stale, Sound, Kept, Ready, Elsewhere, Admitted;
    ghost var before := service.Value();
    FreshRun(before);
    var begin := BeginCompletion(a, submitted, authorized, intact, failure);
    s := Submission(a, submitted, submitted);
    RunOne(before, [], Act(id, begin));
    BeginOutcome(before, id, a, submitted, authorized, intact, failure);
    answer := service.Execute(id, begin);
    steps := [] + [Act(id, begin)];
    if !answer.Pending? { return; }
    s := answer.submission;
    ghost var first := steps;
    steps := Others(service, meanwhile, before, steps);
    if Elsewhere(meanwhile, id) { ElsewhereKeeps(before, first, meanwhile, id); }
    if foreign.Some? { s, steps := Downgrade(service, id, s, foreign.value, before, steps); }
  }

  // The submission may be stored as it stands, and if it asks for its code to be published, that goes well.
  predicate Unhindered(l: Ledger, id: nat, a: nat, submitted: Report, plan: Option<Plan>, head: Option<string>, w: PublicationPort.World) {
    && Ready(l, a, submitted)
    && (plan.Some? && submitted.code.Some? && submitted.outcome == Succeeded ==> PublishesWell(l, plan.value, id, a, submitted.code.value, head, w))
  }

  // The publication a checked submission asks for, and its last transaction.
  method PublishAndConclude(service: Service, id: nat, checked: Submission, plan: Option<Plan>, remote: PublicationPort.Remote, w: PublicationPort.World,
                            later: seq<Step>, authorized: bool, publishable: bool, ghost begun: Status, ghost submitted: Report,
                            ghost failure: Option<string>, ghost foreign: Option<string>, ghost before: State, ghost done: seq<Step>)
    returns (answer: Answer, ghost steps: seq<Step>)
    requires service.Valid() && Consistent(before) && service.Value() == Run(before, done) && (plan.Some? ==> Unlocked(plan.value, id))
    requires id in before.ledgers && begun == before.ledgers[id].state && checked == Checked(begun, checked.attempt, submitted, failure, foreign)
    modifies service, remote
    ensures service.Valid() && service.Value() == Run(before, steps) && done <= steps && |done| < |steps|
    ensures answer == AnswerOf(Run(before, steps[..|steps| - 1]), steps[|steps| - 1])
    ensures || (steps[|steps| - 1].Act? && steps[|steps| - 1].op.EndCompletion?)
            || (Asks(checked, plan) && !answer.Receipt? && answer !in {Published(Confirmed), Published(PublicationFailed)})
    ensures answer.Receipt? ==> StoredResult(service.Value(), id, answer.report)
    ensures !Asks(checked, plan) ==> remote.pushes == old(remote.pushes) && remote.creates == old(remote.creates)
    ensures answer.Receipt? && StoredBy(before, steps, id) ==>
              && var prior := Run(before, steps[..|steps| - 1]).ledgers[id];
              && answer.accepted && checked.attempt + 1 == |prior.attempts| && prior.state in {Claimed, Running, CancelRequested}
              && Verdict(prior.state, submitted, failure, foreign, publishable,
                         plan.Some? && submitted.code.Some? ==> Grounded(before, steps, |done|, id, checked.attempt, submitted.code.value), answer.report)
    ensures authorized && publishable && Elsewhere(later, id) && checked.report == submitted && old(id in service.ledgers && checked in service.ledgers[id].pending)
            && Unhindered(old(service.ledgers)[id], id, checked.attempt, submitted, plan, old(remote.head), w) ==>
              answer == Receipt(true, 0, Decided(Running, submitted, true))
  {
    hide Next, Run, Consistent, AnswerOf, Stale, Sound, Kept, CameTo, Grounded, LeavesLock, Ready, Elsewhere, PublishesWell, OnlyPublished, Checked, Verdict, ConcludedBy,
         Asks, Unhindered, Decided;
    var s: Submission, goesOn: bool;
    SubmittedStays(begun, checked, submitted, failure, foreign);
    StaysOut(checked, plan);
    ghost var smooth := id in service.ledgers && Unhindered(service.ledgers[id], id, checked.attempt, submitted, plan, remote.head, w);
    if smooth { StartsReady(service.ledgers[id], id, checked.attempt, submitted, plan, remote.head, w); }
    answer, s, goesOn, steps := PublishIfAsked(service, id, checked, plan, remote, w, before, done);
    if !goesOn { return; }
    ghost var there, end := steps, Act(id, EndCompletion(s, authorized, publishable));
    answer, steps := Conclude(service, id, s, later, authorized, publishable, before, there);
    assert steps[..|steps| - 1] == there + later;
    if answer.Receipt? && StoredBy(before, steps, id) {
      if begun == CancelRequested { CancelStays(before, there + later, id); }
      Judged(before, begun, done, there, later, end, id, checked.attempt, submitted, failure, foreign, publishable, plan, s, answer);
    }
  }

  lemma SubmittedStays(begun: Status, checked: Submission, submitted: Report, failure: Option<string>, foreign: Option<string>)
    requires checked == Checked(begun, checked.attempt, submitted, failure, foreign)
    ensures checked.submitted == submitted && checked.report.code == submitted.code
  {}

  // Accepts a submitted result; `plan` is there when the request wants its code published. A first transaction, foreign checks and
  // publication outside any transaction, and a last transaction. Others act in between. A receipt always carries the canonical result;
  // one that this call stores is the verdict on the submission, where what must be published is so exactly when the operation that
  // answered is a confirmed one of its own attempt, and of its own artifact unless another stood in. A publication that is neither confirmed
  // nor failed ends the call with nothing stored. And when nobody interferes, and whatever is to be published arrives, the submission is
  // accepted as it is.
  method AcceptResult(service: Service, id: nat, a: nat, submitted: Report, authorized: bool, intact: bool, failure: Option<string>,
                      meanwhile: seq<Step>, foreign: Option<string>, plan: Option<Plan>, remote: PublicationPort.Remote,
                      w: PublicationPort.World, later: seq<Step>, stillAuthorized: bool, publishable: bool)
    returns (answer: Answer, ghost steps: seq<Step>, ghost asked: nat)
    requires service.Valid() && (plan.Some? ==> Unlocked(plan.value, id))
    modifies service, remote
    ensures service.Valid() && service.Value() == Run(old(service.Value()), steps)
    ensures |steps| > 0 && steps[0] == Act(id, BeginCompletion(a, submitted, authorized, intact, failure))
    ensures answer == AnswerOf(Run(old(service.Value()), steps[..|steps| - 1]), steps[|steps| - 1])
    ensures !AnswerOf(old(service.Value()), steps[0]).Pending? ==> |steps| == 1
    ensures AnswerOf(old(service.Value()), steps[0]).Pending? ==>
              || (steps[|steps| - 1].Act? && steps[|steps| - 1].op.EndCompletion?)
              || (plan.Some? && submitted.code.Some? && foreign.None? && !answer.Receipt? && answer !in {Published(Confirmed), Published(PublicationFailed)})
    ensures answer.Receipt? ==> StoredResult(service.Value(), id, answer.report)
    ensures plan.None? || foreign.Some? || submitted.code.None? ==> remote.pushes == old(remote.pushes) && remote.creates == old(remote.creates)
    ensures answer.Receipt? && StoredBy(old(service.Value()), steps, id) ==>
              && var prior := Run(old(service.Value()), steps[..|steps| - 1]).ledgers[id];
              && answer.accepted && a + 1 == |prior.attempts| && prior.state in {Claimed, Running, CancelRequested}
              && Verdict(prior.state, submitted, failure, foreign, publishable,
                         plan.Some? && submitted.code.Some? ==> Grounded(old(service.Value()), steps, asked, id, a, submitted.code.value), answer.report)
    ensures authorized && intact && failure.None? && foreign.None? && stillAuthorized && publishable && Elsewhere(meanwhile, id) && Elsewhere(later, id)
            && id in old(service.ledgers) && Unhindered(old(service.ledgers)[id], id, a, submitted, plan, old(remote.head), w)
            ==> answer == Receipt(true, 0, submitted)
  {
    hide Next, Run, Consistent, AnswerOf, Stale, Sound, Kept, Grounded, LeavesLock, Ready, Elsewhere, PublishesWell, Checked, Verdict, Unhindered, Decided;
    ghost var before := service.Value();
    asked := 0;
    var s: Submission;
    ghost var smooth := id in before.ledgers && Unhindered(before.ledgers[id], id, a, submitted, plan, remote.head, w);
    if smooth { StartsReady(before.ledgers[id], id, a, submitted, plan, remote.head, w); }
    answer, s, steps := AdmitAndCheck(service, id, a, submitted, authorized, intact, failure, meanwhile, foreign);
    if !answer.Pending? {
      OnlyOne(before, steps);
      return;
    }
    asked := |steps|;
    ghost var begun := before.ledgers[id].state;
    CodesChecked(begun, a, submitted, failure, foreign);
    if smooth { StaysUnhindered(before.ledgers[id], service.ledgers, id, a, submitted, plan, remote.head, w, s); }
    answer, steps := PublishAndConclude(service, id, s, plan, remote, w, later, stillAuthorized, publishable, begun, submitted, failure, foreign, before, steps);
  }

  lemma StaysUnhindered(l: Ledger, ledgers: map<nat, Ledger>, id: nat, a: nat, submitted: Report, plan: Option<Plan>, head: Option<string>,
                        w: PublicationPort.World, s: Submission)
    requires Unhindered(l, id, a, submitted, plan, head, w)
    ensures Decided(Running, submitted, true) == submitted
    ensures id in ledgers && ledgers[id] == l.(pending := l.pending + multiset{s}) ==>
              Unhindered(ledgers[id], id, a, submitted, plan, head, w) && s in ledgers[id].pending
  {
    hide Unresolved, QuietPlan, PublicationPort.Succeeds;
  }

  lemma StartsReady(l: Ledger, id: nat, a: nat, submitted: Report, plan: Option<Plan>, head: Option<string>, w: PublicationPort.World)
    requires Unhindered(l, id, a, submitted, plan, head, w)
    ensures l.state == Running && Ready(l, a, submitted)
    ensures forall m :: OnlyPublished(l, m) ==> Ready(m, a, submitted) && forall s :: s in l.pending ==> s in m.pending
    ensures plan.Some? && submitted.code.Some? && submitted.outcome == Succeeded ==> PublishesWell(l, plan.value, id, a, submitted.code.value, head, w)
  {
    hide Unresolved;
  }

  lemma StaysOut(s: Submission, plan: Option<Plan>)
    ensures Asks(s, plan) ==> plan.Some? && s.report.code.Some? && s.report.outcome == Succeeded
  {}

  lemma OnlyOne(s: State, steps: seq<Step>)
    requires |steps| == 1
    ensures steps[..|steps| - 1] == [] && Run(s, steps[..|steps| - 1]) == s
  {
    assert steps[..0] == [];
  }

  lemma CodesChecked(begun: Status, a: nat, submitted: Report, failure: Option<string>, foreign: Option<string>)
    ensures var s := Checked(begun, a, submitted, failure, foreign);
            && s.attempt == a && s.submitted == submitted && s.report.code == submitted.code
            && (foreign.Some? ==> s.report.outcome == Failed)
            && (begun == Running && failure.None? && foreign.None? ==> s.report == submitted)
  {}
}
