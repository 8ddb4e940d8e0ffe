// The service over all requests: one transaction per call, and the sweeps that run several.
module DispatchService {
  import opened Options
  import opened DispatchRows
  import opened DispatchRules
  import opened DispatchInvariants
  import opened DispatchEvolution
  import opened DispatchFrames
  import opened DispatchRuns
  import opened DispatchTransactions

  method RunLifecycle(rows: Rows, op: Op, i: Incarnation, free: bool) returns (answer: Answer)
    requires ForeignKeys(rows.Value()) && Lifecycle(op)
    modifies rows
    ensures var t := Perform(old(rows.Value()), op, i, free); answer == t.answer && (answer.Refused? || rows.Value() == t.rows)
  {
    hide Prepare, Reserve, Retire, RejectUnstarted, Claim, Start, Renew, Resume, Expire, SubmitStop, SubmitClaimBoundStop, CloseOrphan,
         Cancel, Recover, BeginResult, EndResult, BeginPublish, OpenSendGate, CallPort, ReturnPort, StoreReceipt, Crash, Reconcile, Resolve, FailPending, ForeignKeys;
    match op {
      case PrepareSources(valid) => answer := rows.PrepareSources(valid);
      case ReserveSlot(route, incarnation, eligible, now) => answer := rows.ReserveSlot(route, incarnation, i.slot, free, eligible && !i.signedOff, now);
      case RetireExpired(jobIdle, now) => answer := rows.RetireExpired(jobIdle, now);
      case RejectRequest(reason, jobIdle) => answer := rows.RejectUnstartedRequest(reason, jobIdle);
      case ClaimAttempt(incarnation, claimKey, authorized, eligible, now) => answer := rows.ClaimCandidate(incarnation, i, claimKey, free, authorized, eligible, now);
      case StartAttempt(a, scope, authorized, now, maxDuration) => answer := rows.StartAttempt(a, i, scope, authorized, now, maxDuration);
      case RenewAttempt(a, scopeId, authorized, now, maxDuration) => answer := rows.RenewAttempt(a, i, scopeId, authorized, now, maxDuration);
      case ResumeAttempt(a, scope, authorized, now, maxDuration) => answer := rows.ResumeAttempt(a, i, scope, authorized, now, maxDuration);
      case ExpireAttempt(a, now, maxDuration) => answer := rows.ExpireAttempt(a, now, maxDuration);
      case StopAttempt(a, authorized, observation) => answer := rows.StopAttempt(a, authorized, observation);
      case StopUnstarted(a, authorized, reason, digest, scopedEvidence, timely) =>
        answer := rows.StopUnstarted(a, authorized, reason, digest, scopedEvidence, timely);
      case CloseSignedOff(a) => answer := rows.CloseSignedOff(a, i);
    }
  }

  method RunOutcome(rows: Rows, op: Op, i: Incarnation, free: bool) returns (answer: Answer)
    requires ForeignKeys(rows.Value()) && !Lifecycle(op)
    modifies rows
    ensures var t := Perform(old(rows.Value()), op, i, free); answer == t.answer && (answer.Refused? || rows.Value() == t.rows)
  {
    hide Prepare, Reserve, Retire, RejectUnstarted, Claim, Start, Renew, Resume, Expire, SubmitStop, SubmitClaimBoundStop, CloseOrphan,
         Cancel, Recover, BeginResult, EndResult, BeginPublish, OpenSendGate, CallPort, ReturnPort, StoreReceipt, Crash, Reconcile, Resolve, FailPending, ForeignKeys;
    match op {
      case CancelRequest(key, expectedVersion, authorized) => answer := rows.CancelRequest(key, expectedVersion, authorized);
      case RecoverRequest(a, key, action, expectedVersion, evidence, mode, authorized, retryAllowed) =>
        answer := rows.RecoverRequest(a, key, action, expectedVersion, evidence, mode, authorized, retryAllowed);
      case BeginCompletion(a, submitted, authorized, intact, failure) => answer := rows.BeginCompletion(a, submitted, authorized, intact, failure);
      case FailCompletion(submission, summary) => answer := rows.FailCompletion(submission, summary);
      case EndCompletion(submission, authorized, publishable) => answer := rows.EndCompletion(submission, authorized, publishable);
      case BeginPublication(a, artifact, head, authorized, publishable, seen) =>
        answer := rows.BeginPublication(a, artifact, head, authorized, publishable, seen);
      case SendPublication(authorized) => answer := rows.SendPublication(authorized);
      case PortCalled => answer := rows.PortCalled();
      case PortReturned(status, issued) => answer := rows.PortReturned(status, issued);
      case StorePublication => answer := rows.StorePublication();
      case PublisherDied => answer := rows.PublisherDied();
      case ReconcilePublication(p, seen) => answer := rows.ReconcilePublication(p, seen);
      case ResolvePublication(p, key, authorized, attestation) => answer := rows.ResolvePublication(p, key, authorized, attestation);
    }
  }

  // Runs one transaction on a fresh view of the rows, as a committed or a dropped change.
  method Transact(l: Ledger, op: Op, i: Incarnation, free: bool) returns (t: Tx)
    requires ForeignKeys(l)
    ensures t == Perform(l, op, i, free)
  {
    hide Perform, ForeignKeys;
    var rows := new Rows(l);
    var answer: Answer;
    if Lifecycle(op) { answer := RunLifecycle(rows, op, i, free); } else { answer := RunOutcome(rows, op, i, free); }
    RefusedWritesNothing(l, op, i, free);
    if answer.Refused? { return Tx(l, answer); }
    return Tx(rows.Value(), answer);
  }

  lemma RefusedFinish(l: Ledger, a: nat, report: Report, submitted: Report)
    requires ForeignKeys(l) && a < |l.attempts|
    ensures FinishResult(l, a, report, submitted).answer.Refused? ==> FinishResult(l, a, report, submitted).rows == l
    ensures FinishResult(l, a, report, submitted).answer.Refused? || FinishResult(l, a, report, submitted).answer.Receipt?
  {
    hide Unresolved;
  }

  lemma RefusedEnd(l: Ledger, s: Submission, authorized: bool, publishable: bool)
    requires ForeignKeys(l)
    ensures EndResult(l, s, authorized, publishable).answer.Refused? ==> EndResult(l, s, authorized, publishable).rows == l
  {
    hide FinishResult, Unresolved;
    if s.attempt < |l.attempts| {
      RefusedFinish(l, s.attempt, s.report, s.submitted);
      RefusedFinish(l, s.attempt, s.report.(outcome := Failed, summary := "authorization_unavailable"), s.submitted);
    }
  }

  lemma RefusedStop(l: Ledger, a: nat, authorized: bool, o: Observation, reason: string, digest: string, scopedEvidence: bool, timely: bool, i: Incarnation)
    requires ForeignKeys(l)
    ensures SubmitStop(l, a, authorized, o).answer.Refused? ==> SubmitStop(l, a, authorized, o).rows == l
    ensures var t := SubmitClaimBoundStop(l, a, authorized, reason, digest, scopedEvidence, timely); t.answer.Refused? ==> t.rows == l
    ensures CloseOrphan(l, a, i).answer.Refused? ==> CloseOrphan(l, a, i).rows == l
  {
    hide FinishStoppedCancellation, FinishResult, AcceptScopedStop, UnstartedSignature, HasStop;
  }

  lemma RefusedLease(l: Ledger, op: Op, i: Incarnation, free: bool)
    requires ForeignKeys(l) && (op.StartAttempt? || op.RenewAttempt? || op.ResumeAttempt? || op.ExpireAttempt?)
    ensures Perform(l, op, i, free).answer.Refused? ==> Perform(l, op, i, free).rows == l
  {
    hide Active, RecordedScope, HasStop, MoveTogether, LeaseExpired, CancelForStop;
    if op.a < |l.attempts| { ExpiryCounts(l, op.a); }
  }

  lemma RefusedStops(l: Ledger, op: Op, i: Incarnation, free: bool)
    requires ForeignKeys(l) && (op.StopAttempt? || op.StopUnstarted? || op.CloseSignedOff?)
    ensures Perform(l, op, i, free).answer.Refused? ==> Perform(l, op, i, free).rows == l
  {
    hide SubmitStop, SubmitClaimBoundStop, CloseOrphan;
    var none := Observation(Scope("", "", "", ""), "", false, false, false);
    match op
    case StopAttempt(a, authorized, o) => RefusedStop(l, a, authorized, o, "", "", false, false, i);
    case StopUnstarted(a, authorized, reason, digest, scopedEvidence, timely) =>
      RefusedStop(l, a, authorized, none, reason, digest, scopedEvidence, timely, i);
    case CloseSignedOff(a) => RefusedStop(l, a, false, none, "", "", false, false, i);
  }

  lemma RefusedIntake(l: Ledger, op: Op, i: Incarnation, free: bool)
    requires ForeignKeys(l) && (op.PrepareSources? || op.ReserveSlot? || op.RetireExpired? || op.RejectRequest? || op.ClaimAttempt?)
    ensures Perform(l, op, i, free).answer.Refused? ==> Perform(l, op, i, free).rows == l
  {
    hide RetryAuthority, RetireOpen, Transition;
  }

  lemma RefusedLifecycle(l: Ledger, op: Op, i: Incarnation, free: bool)
    requires ForeignKeys(l) && Lifecycle(op)
    ensures Perform(l, op, i, free).answer.Refused? ==> Perform(l, op, i, free).rows == l
  {
    hide Perform;
    if op.StartAttempt? || op.RenewAttempt? || op.ResumeAttempt? || op.ExpireAttempt? { RefusedLease(l, op, i, free); }
    else if op.StopAttempt? || op.StopUnstarted? || op.CloseSignedOff? { RefusedStops(l, op, i, free); }
    else { RefusedIntake(l, op, i, free); }
  }

  lemma RefusedOutcome(l: Ledger, op: Op, i: Incarnation, free: bool)
    requires ForeignKeys(l) && !Lifecycle(op)
    ensures Perform(l, op, i, free).answer.Refused? ==> Perform(l, op, i, free).rows == l
  {
    hide EndResult, CancelOpen, AcceptRecoveryStop, EndRecovery, Unresolved, HasStop, StoreOutcome;
    if op.EndCompletion? { RefusedEnd(l, op.submission, op.authorized, op.publishable); }
  }

  // A refused transaction leaves every row as it was.
  lemma RefusedWritesNothing(l: Ledger, op: Op, i: Incarnation, free: bool)
    requires ForeignKeys(l)
    ensures Perform(l, op, i, free).answer.Refused? ==> Perform(l, op, i, free).rows == l
  {
    hide Perform;
    if Lifecycle(op) { RefusedLifecycle(l, op, i, free); } else { RefusedOutcome(l, op, i, free); }
  }

  /* ---- the service ---- */

  // One candidate row a claim looks at, and what authorization and eligibility say about it.
  datatype Offer = Offer(id: nat, authorized: bool, eligible: bool)

  datatype SweepKind = SignedOffUnstartedAttempts | ExpiredAttempts

  // One attempt a sweep looks at, the time its transaction reads and the maximum duration of its profile.
  datatype Target = Target(id: nat, attempt: nat, now: int, maxDuration: int)

  function SweepOp(kind: SweepKind, target: Target): Op {
    match kind
    case SignedOffUnstartedAttempts => CloseSignedOff(target.attempt)
    case ExpiredAttempts => ExpireAttempt(target.attempt, target.now, target.maxDuration)
  }

  function ClaimOf(offer: Offer, incarnation: nat, claimKey: string, now: int): Step {
    Act(offer.id, ClaimAttempt(incarnation, claimKey, offer.authorized, offer.eligible, now))
  }

  // What the transaction of a step answers, if it runs at all.
  function AnswerOf(s: State, step: Step): Answer {
    if !step.Act? || step.id !in s.ledgers || !ForeignKeys(s.ledgers[step.id]) then Skipped
    else if step.op.ClaimAttempt? && KeySpent(s, step.op.incarnation, step.op.claimKey) then Skipped
    else
      var l := s.ledgers[step.id];
      var i := Speaker(s, l, step.op);
      if i.None? then Skipped else Perform(l, step.op, i.value, SlotFree(s, i.value.slot)).answer
  }

  function Sweep(targets: seq<Target>, kind: SweepKind): seq<Step> {
    if |targets| == 0 then [] else Sweep(targets[..|targets| - 1], kind) + [Act(targets[|targets| - 1].id, SweepOp(kind, targets[|targets| - 1]))]
  }

  // How many steps of a run were answered with Done.
  function DoneCount(s: State, steps: seq<Step>): nat {
    if |steps| == 0 then 0
    else
      var before := steps[..|steps| - 1];
      DoneCount(s, before) + if AnswerOf(Run(s, before), steps[|steps| - 1]) == Done then 1 else 0
  }

  // What an intake key was bound to: the request it made and the input it carried.
  datatype Intake = Intake(id: nat, input: string)

  // What a registration key was bound to.
  datatype Registration = Registration(incarnation: nat, row: Incarnation)

  datatype IntakeAnswer = Known(id: nat) | Rejected(error: Error)

  // A claim takes the candidate of one offer, answers from the attempt its key took earlier, or takes nothing.
  datatype ClaimAnswer = Took(offer: nat, attempt: nat) | Earlier(id: nat, attempt: nat) | Nothing

  class Service {
    var ledgers: map<nat, Ledger>
    var incarnations: map<nat, Incarnation>
    var intakes: map<(string, string), Intake>
    var registrations: map<string, Registration>

    function Value(): State reads this { State(ledgers, incarnations) }

    // Every intake key names a request of its own, every registration key an incarnation of its own.
    ghost predicate KeysBound() reads this {
      && (forall k :: k in intakes ==> intakes[k].id in ledgers)
      && (forall j, k :: j in intakes && k in intakes && intakes[j].id == intakes[k].id ==> j == k)
      && (forall k :: k in registrations ==> registrations[k].incarnation in incarnations)
      && (forall j, k :: j in registrations && k in registrations && registrations[j].incarnation == registrations[k].incarnation ==> j == k)
    }

    ghost predicate Valid() reads this { Consistent(Value()) && KeysBound() }

    constructor ()
      ensures Value() == Empty && Valid() && intakes == map[] && registrations == map[]
    {
      ledgers, incarnations, intakes, registrations := map[], map[], map[], map[];
    }

    // The insert of one new request row; a row that exists stays.
    method InsertRequest(id: nat) returns (added: bool)
      modifies this`ledgers
      ensures Value() == Next(old(Value()), Submit(id)) && added == (id !in old(ledgers))
      ensures old(Valid()) ==> Valid()
    {
      hide Inv, Consistent;
      ghost var s := Value();
      if id in ledgers {
        added := false;
      } else {
        ledgers := ledgers[id := Submitted()];
        added := true;
      }
      if Consistent(s) { NextConsistent(s, Submit(id)); }
    }

    // Intake is idempotent per principal and key: the same input is answered with the request it made, another input is a
    // conflict, and neither writes anything. A new key makes one waiting request. `denied` is why the actor may not submit, and
    // `unfit` why a new request of this input may not be made, its task and its pinned documents being read only then.
    method SubmitRequest(principal: string, key: string, input: string, denied: Option<Error>, unfit: Option<Error>, id: nat) returns (answer: IntakeAnswer)
      modifies this
      ensures denied.Some? ==> answer == Rejected(denied.value)
      ensures denied.None? && (principal, key) in old(intakes) ==>
                answer == (if old(intakes)[(principal, key)].input == input then Known(old(intakes)[(principal, key)].id) else Rejected(IdempotencyConflict))
      ensures denied.None? && (principal, key) !in old(intakes) ==>
                answer == (if unfit.Some? then Rejected(unfit.value) else if id in old(ledgers) then Rejected(Conflict) else Known(id))
      ensures if denied.None? && unfit.None? && (principal, key) !in old(intakes) && id !in old(ledgers)
              then Value() == Next(old(Value()), Submit(id)) && intakes == old(intakes)[(principal, key) := Intake(id, input)]
              else Value() == old(Value()) && intakes == old(intakes)
      ensures registrations == old(registrations) && (old(Valid()) ==> Valid())
    {
      hide Consistent, Next;
      if denied.Some? { return Rejected(denied.value); }
      if (principal, key) in intakes {
        var known := intakes[(principal, key)];
        return if known.input == input then Known(known.id) else Rejected(IdempotencyConflict);
      }
      if unfit.Some? { return Rejected(unfit.value); }
      if id in ledgers { return Rejected(Conflict); }
      Submits(Value(), id);
      var _ := InsertRequest(id);
      intakes := intakes[(principal, key) := Intake(id, input)];
      return Known(id);
    }

    // The insert of one incarnation, which signs every older incarnation of its slot off.
    method InsertIncarnation(incarnation: nat, row: Incarnation)
      modifies this`incarnations
      ensures Value() == Next(old(Value()), Register(incarnation, row))
      ensures old(Valid()) ==> Valid()
    {
      hide Consistent;
      ghost var s := Value();
      if incarnation !in incarnations && !row.signedOff {
        incarnations := SignOff(incarnations, row.slot);
        incarnations := incarnations[incarnation := row];
      }
      if Consistent(s) { NextConsistent(s, Register(incarnation, row)); }
    }

    // Registration is idempotent per key: a repeated one is answered with the incarnation it made, and signs nobody off.
    method RegisterIncarnation(key: string, authorized: bool, incarnation: nat, row: Incarnation) returns (answer: IntakeAnswer)
      requires !row.signedOff
      modifies this
      ensures !authorized ==> answer == Rejected(Forbidden)
      ensures authorized && key in old(registrations) ==>
                answer == if old(registrations)[key].row == row then Known(old(registrations)[key].incarnation) else Rejected(IdempotencyConflict)
      ensures authorized && key !in old(registrations) ==> answer == if incarnation in old(incarnations) then Rejected(Conflict) else Known(incarnation)
      ensures if authorized && key !in old(registrations) && incarnation !in old(incarnations)
              then Value() == Next(old(Value()), Register(incarnation, row)) && registrations == old(registrations)[key := Registration(incarnation, row)]
              else Value() == old(Value()) && registrations == old(registrations)
      ensures intakes == old(intakes) && (old(Valid()) ==> Valid())
    {
      hide Consistent, Next;
      if !authorized { return Rejected(Forbidden); }
      if key in registrations {
        var known := registrations[key];
        return if known.row == row then Known(known.incarnation) else Rejected(IdempotencyConflict);
      }
      if incarnation in incarnations { return Rejected(Conflict); }
      Registers(Value(), incarnation, row);
      InsertIncarnation(incarnation, row);
      registrations := registrations[key := Registration(incarnation, row)];
      return Known(incarnation);
    }

    // One transaction: commits its rows, or nothing when it refuses. No other request's rows and no incarnation move, and this
    // request's rows keep their invariant unless the operation is a stale stop.
    method Execute(id: nat, op: Op) returns (answer: Answer)
      modifies this`ledgers
      ensures Value() == Next(old(Value()), Act(id, op)) && answer == AnswerOf(old(Value()), Act(id, op))
      ensures old(Valid()) ==> Valid()
      ensures !Stale(old(Value()), Act(id, op), id) && Tracked(old(Value()), id) ==> Tracked(Value(), id)
      ensures ledgers.Keys == old(ledgers).Keys && forall x :: x in ledgers && x != id ==> ledgers[x] == old(ledgers)[x]
      ensures answer.Refused? ==> ledgers == old(ledgers)
    {
      hide Inv, Perform, ForeignKeys, SlotFree, KeySpent, Stale, Consistent;
      ghost var s := Value();
      if Consistent(s) { NextConsistent(s, Act(id, op)); }
      if !Stale(s, Act(id, op), id) && Tracked(s, id) { NextTracks(s, Act(id, op), id); }
      if id !in ledgers || !ForeignKeys(ledgers[id]) { return Skipped; }
      if op.ClaimAttempt? && KeySpent(Value(), op.incarnation, op.claimKey) { return Skipped; }
      var i := Speaker(Value(), ledgers[id], op);
      if i.None? { return Skipped; }
      var t := Transact(ledgers[id], op, i.value, SlotFree(Value(), i.value.slot));
      RefusedWritesNothing(ledgers[id], op, i.value, SlotFree(Value(), i.value.slot));
      assert t.rows == ledgers[id] ==> ledgers[id := t.rows] == ledgers;
      if !t.answer.Refused? { ledgers := ledgers[id := t.rows]; }
      return t.answer;
    }

    // A claim first looks for the attempt its key took earlier and answers with that. Otherwise it walks over the offered
    // candidates and takes the first that does not turn it away; a refused authorization ends the whole claim. It takes at
    // most one attempt, and repeating it with its key finds that very attempt.
    method ClaimNext(offers: seq<Offer>, incarnation: nat, claimKey: string, now: int) returns (claimed: ClaimAnswer)
      modifies this`ledgers
      ensures KeySpent(old(Value()), incarnation, claimKey) <==> claimed.Earlier?
      ensures match claimed
              case Earlier(id, a) => Value() == old(Value()) && KeyOf(Value(), id, a, incarnation, claimKey)
              case Nothing => Value() == old(Value())
              case Took(n, a) =>
                && n < |offers| && Value() == Next(old(Value()), ClaimOf(offers[n], incarnation, claimKey, now))
                && AnswerOf(old(Value()), ClaimOf(offers[n], incarnation, claimKey, now)) == Done
                && KeyOf(Value(), offers[n].id, a, incarnation, claimKey)
                && forall j :: 0 <= j < n ==> AnswerOf(old(Value()), ClaimOf(offers[j], incarnation, claimKey, now)) == Skipped
      ensures claimed.Nothing? ==>
                || (forall j :: 0 <= j < |offers| ==> AnswerOf(old(Value()), ClaimOf(offers[j], incarnation, claimKey, now)) == Skipped)
                || (exists n :: 0 <= n < |offers| && AnswerOf(old(Value()), ClaimOf(offers[n], incarnation, claimKey, now)) == Refused(Forbidden)
                                && forall j :: 0 <= j < n ==> AnswerOf(old(Value()), ClaimOf(offers[j], incarnation, claimKey, now)) == Skipped)
      ensures old(Valid()) ==> Valid()
    {
      hide Inv, Perform, ForeignKeys, SlotFree, Consistent, AnswerOf, Next;
      if KeySpent(Value(), incarnation, claimKey) {
        var id :| id in ledgers && exists a: nat | a < |ledgers[id].attempts| :: KeyOf(Value(), id, a, incarnation, claimKey);
        var a: nat :| a < |ledgers[id].attempts| && KeyOf(Value(), id, a, incarnation, claimKey);
        return Earlier(id, a);
      }
      hide KeySpent, KeyOf;
      var k := 0;
      while k < |offers|
        invariant k <= |offers| && Value() == old(Value())
        invariant forall j :: 0 <= j < k ==> AnswerOf(old(Value()), ClaimOf(offers[j], incarnation, claimKey, now)) == Skipped
      {
        var step := ClaimOf(offers[k], incarnation, claimKey, now);
        ClaimAnswers(Value(), step);
        var answer := Execute(offers[k].id, step.op);
        if answer == Done { return Took(k, |ledgers[offers[k].id].attempts| - 1); }
        if answer.Refused? { return Nothing; }
        k := k + 1;
      }
      return Nothing;
    }

    // The sweep over attempts whose supervisor was replaced before they started.
    method CloseSignedOffAttempts(targets: seq<Target>) returns (count: nat)
      modifies this`ledgers
      ensures Value() == Run(old(Value()), Sweep(targets, SignedOffUnstartedAttempts))
      ensures count == DoneCount(old(Value()), Sweep(targets, SignedOffUnstartedAttempts))
      ensures old(Valid()) ==> Valid()
    {
      count := RunSweep(targets, SignedOffUnstartedAttempts);
    }

    // The sweep over attempts whose lease or maximum duration has run out.
    method MarkExpiredAttempts(targets: seq<Target>) returns (count: nat)
      modifies this`ledgers
      ensures Value() == Run(old(Value()), Sweep(targets, ExpiredAttempts))
      ensures count == DoneCount(old(Value()), Sweep(targets, ExpiredAttempts))
      ensures old(Valid()) ==> Valid()
    {
      count := RunSweep(targets, ExpiredAttempts);
    }

    // Every target in its own transaction, counting those that did something.
    method RunSweep(targets: seq<Target>, kind: SweepKind) returns (count: nat)
      modifies this`ledgers
      ensures Value() == Run(old(Value()), Sweep(targets, kind)) && count == DoneCount(old(Value()), Sweep(targets, kind))
      ensures old(Valid()) ==> Valid()
    {
      hide Inv, Perform, ForeignKeys, SlotFree, KeySpent, Consistent, AnswerOf, Next;
      count := 0;
      for k := 0 to |targets|
        invariant Value() == Run(old(Value()), Sweep(targets[..k], kind))
        invariant count == DoneCount(old(Value()), Sweep(targets[..k], kind))
        invariant old(Valid()) ==> Valid()
      {
        SweepGrows(targets, k, kind);
        SweepLast(old(Value()), targets, k, kind);
        var answer := Execute(targets[k].id, SweepOp(kind, targets[k]));
        if answer == Done { count := count + 1; }
      }
      assert targets[..|targets|] == targets;
    }
  }

  lemma SweepGrows(targets: seq<Target>, k: nat, kind: SweepKind)
    requires k < |targets|
    ensures Sweep(targets[..k + 1], kind) == Sweep(targets[..k], kind) + [Act(targets[k].id, SweepOp(kind, targets[k]))]
  {
    assert targets[..k + 1][..k] == targets[..k];
  }

  lemma SweepLast(s: State, targets: seq<Target>, k: nat, kind: SweepKind)
    requires k < |targets|
    ensures var steps, step := Sweep(targets[..k], kind), Act(targets[k].id, SweepOp(kind, targets[k]));
            && Run(s, steps + [step]) == Next(Run(s, steps), step)
            && DoneCount(s, steps + [step]) == DoneCount(s, steps) + if AnswerOf(Run(s, steps), step) == Done then 1 else 0
  {
    var steps, step := Sweep(targets[..k], kind), Act(targets[k].id, SweepOp(kind, targets[k]));
    assert (steps + [step])[..|steps|] == steps;
  }

  // A claim that is not taken changes nothing; one that is taken leaves an attempt under its key.
  lemma ClaimAnswers(s: State, step: Step)
    requires step.Act? && step.op.ClaimAttempt?
    ensures AnswerOf(s, step) in {Done, Skipped, Refused(Forbidden)}
    ensures AnswerOf(s, step) != Done ==> Next(s, step) == s
    ensures AnswerOf(s, step) == Done ==>
              && step.id in Next(s, step).ledgers && |Next(s, step).ledgers[step.id].attempts| > 0
              && KeyOf(Next(s, step), step.id, |Next(s, step).ledgers[step.id].attempts| - 1, step.op.incarnation, step.op.claimKey)
  {
    hide KeySpent, SlotFree, RetryAuthority;
    if step.id in s.ledgers { assert s.ledgers[step.id := s.ledgers[step.id]] == s.ledgers; }
  }

  lemma Submits(s: State, id: nat)
    requires id !in s.ledgers
    ensures id in Next(s, Submit(id)).ledgers && s.ledgers.Keys <= Next(s, Submit(id)).ledgers.Keys
  {}

  lemma Registers(s: State, incarnation: nat, row: Incarnation)
    requires incarnation !in s.incarnations && !row.signedOff
    ensures incarnation in Next(s, Register(incarnation, row)).incarnations
    ensures s.incarnations.Keys <= Next(s, Register(incarnation, row)).incarnations.Keys
  {}
}
