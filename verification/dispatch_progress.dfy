// When operators can end a request and free its slot without its executor: always, unless a stale stop has already ended it with a
// slot reserved, or its newest publication has reached a remote that shows it halfway.
module DispatchProgress {
  import opened Options
  import opened DispatchRows
  import opened DispatchRules
  import opened DispatchInvariants
  import opened DispatchEvolution
  import opened DispatchFrames
  import opened DispatchSoundness
  import opened DispatchRuns
  import opened DispatchTheorems
  import opened DispatchOutcomes
  import StandIn = DispatchStandIn

  predicate Released(l: Ledger) { forall k :: 0 <= k < |l.reservations| ==> l.reservations[k].released }

  // The request has ended and holds no slot.
  predicate EndedFree(s: State, id: nat) { id in s.ledgers && Terminal(s.ledgers[id].state) && Released(s.ledgers[id]) }

  // It has ended and holds a slot for ever.
  predicate Wedged(l: Ledger) { Terminal(l.state) && !Released(l) }

  // What this operation asks of the remote about a publication, or attests of it, is what the remote shows.
  predicate Meets(op: Op, sight: Sight) {
    && (op.BeginPublication? || op.ReconcilePublication? ==> op.seen == sight.confirms)
    && (op.ResolvePublication? ==> Truthful(op.attestation, sight))
  }

  // What operators do, none of it an executor's: a publisher's process is stopped, its operation reconciled with the remote or resolved
  // by a truthful attestation, and the request is cancelled or recovered.
  predicate ByOperator(op: Op, sight: Sight) {
    && Meets(op, sight)
    && (op.PublisherDied? || op.ReconcilePublication? || op.ResolvePublication? || op.CancelRequest? || op.RecoverRequest?)
  }

  predicate ByOperators(steps: seq<Step>, id: nat, sight: Sight) {
    forall i :: 0 <= i < |steps| ==> steps[i].Act? && steps[i].id == id && ByOperator(steps[i].op, sight)
  }

  // The newest publication has passed the send gate and is not settled, and the remote neither confirms it nor lacks it.
  predicate Stranded(l: Ledger, sight: Sight) {
    && |l.publications| > 0 && l.publications[|l.publications| - 1].state in {Sent, Unknown}
    && Tells(sight, l.publications[|l.publications| - 1].head) == Neither
  }

  /* ---- fresh keys ---- */

  lemma {:induction false} Bounded(keys: set<string>) returns (n: nat)
    ensures forall k :: k in keys ==> |k| < n
  {
    if keys == {} { return 0; }
    var k :| k in keys;
    n := Bounded(keys - {k});
    if n <= |k| { n := |k| + 1; }
  }

  lemma FreshKey(keys: set<string>) returns (key: string)
    ensures key !in keys
  {
    var n := Bounded(keys);
    key := seq(n, _ => 'k');
  }

  /* ---- publications are settled ---- */

  lemma StoppedPublisher(l: Ledger)
    requires Inv(l)
    ensures var m := Crash(l).rows; Inv(m) && m == l.(publisher := None)
  {
    hide Inv;
    CrashInv(l);
  }

  // The newest operation is the only one that can be open; storing a final state closes it.
  lemma ClosedLast(state: Status, ps: seq<Publication>, attempts: seq<Attempt>, next: PublicationState)
    requires Publications(state, ps, attempts) && |ps| > 0 && next in {Confirmed, PublicationFailed}
    ensures !Unresolved(ps[|ps| - 1 := ps[|ps| - 1].(state := next)])
  {
    var after := ps[|ps| - 1 := ps[|ps| - 1].(state := next)];
    forall i | 0 <= i < |after| ensures Resolved(after[i]) { if i + 1 < |ps| { assert after[i] == ps[i]; } }
  }

  lemma OpenPublication(l: Ledger)
    requires Inv(l) && Unresolved(l.publications)
    ensures |l.publications| > 0 && !Resolved(l.publications[|l.publications| - 1]) && Publications(l.state, l.publications, l.attempts)
  {
    hide Capacity, LockStep, History, Stops, Scopes, Results, Outbox, Sending, Retries, PendingResults;
  }

  lemma OpenPublicationLive(l: Ledger)
    requires Inv(l) && Unresolved(l.publications)
    ensures Live(l.state)
  {
    OpenPublication(l);
    hide Inv;
    assert !Resolved(l.publications[|l.publications| - 1]);
  }

  // Reconciliation leaves nothing open, or exactly an unknown newest operation.
  lemma Reconciled(l: Ledger, seen: bool)
    requires Inv(l) && l.publisher.None? && Unresolved(l.publications)
    ensures |l.publications| > 0
    ensures var op := |l.publications| - 1; var m := Reconcile(l, op, seen).rows;
            && Inv(m) && m == l.(publications := m.publications) && |m.publications| == |l.publications|
            && (Unresolved(m.publications) ==> m.publications[op] == l.publications[op].(state := Unknown) && l.publications[op].state in {Sent, Unknown} && !seen)
  {
    hide Inv, Unresolved;
    OpenPublication(l);
    var op := |l.publications| - 1;
    ReconcileInv(l, op, seen);
    if Reconcile(l, op, seen).rows.publications[op].state != Unknown {
      ClosedLast(l.state, l.publications, l.attempts, Reconcile(l, op, seen).rows.publications[op].state);
    }
  }

  lemma Attesting(l: Ledger, key: string, attestation: Attestation)
    requires Inv(l) && l.publisher.None? && |l.publications| > 0 && l.publications[|l.publications| - 1].state == Unknown && key !in l.resolutions
    requires attestation.valid && attestation.remoteHead != Some(l.publications[|l.publications| - 1].head)
    ensures var op := |l.publications| - 1; var m := Resolve(l, op, key, true, attestation).rows;
            Inv(m) && m == l.(publications := m.publications, resolutions := m.resolutions) && !Unresolved(m.publications)
  {
    hide Inv;
    var op := |l.publications| - 1;
    assert !Resolved(l.publications[op]);
    OpenPublication(l);
    ResolveInv(l, op, key, true, attestation);
    ClosedLast(l.state, l.publications, l.attempts, PublicationFailed);
  }

  /* ---- the request ends ---- */

  // A cancel ends a request without a live attempt, or with one that has stopped; any other it leaves to be stopped.
  lemma Cancelling(l: Ledger, key: string)
    requires Inv(l) && !Terminal(l.state) && !Unresolved(l.publications) && key !in l.cancelActions
    ensures ForeignKeys(l)
    ensures var m := Cancel(l, key, l.version, true).rows;
            && Inv(m) && !Unresolved(m.publications) && (Terminal(m.state) || m.state == CancelRequested)
            && (l.state in {Waiting, Reserved} || (|l.attempts| > 0 && l.attempts[|l.attempts| - 1].stopped) ==> Terminal(m.state))
  {
    hide Inv, CancelOpen, Unresolved;
    Keys(l);
    CancelInv(l, key, l.version, true);
    OpenStates(l);
    if l.state in {Waiting, Reserved} { UnclaimedEnds(l); } else { LiveEnds(l); }
  }

  lemma UnclaimedEnds(l: Ledger)
    requires Inv(l) && l.state in {Waiting, Reserved} && ForeignKeys(l)
    ensures var t := CancelOpen(l); !t.answer.Refused? && t.rows.state == Cancelled && t.rows.publications == l.publications
  {
    hide Inv, RetryAuthority, RetireOpen;
    NoResults(l);
    UnclaimedHasNoAttempt(l);
    if l.firstClaimed { WaitingIsAuthorized(l); }
    RetiredRows(l);
  }

  lemma RetiredRows(l: Ledger)
    requires ForeignKeys(l)
    ensures RetireOpen(l) == l.(candidates := RetireOpen(l).candidates, reservations := RetireOpen(l).reservations)
  {}

  lemma LiveEnds(l: Ledger)
    requires Inv(l) && Live(l.state) && !Unresolved(l.publications) && ForeignKeys(l)
    ensures |l.attempts| > 0
    ensures var t := CancelOpen(l);
            && !t.answer.Refused? && t.rows.publications == l.publications && (Terminal(t.rows.state) || t.rows.state == CancelRequested)
            && (l.attempts[|l.attempts| - 1].stopped ==> Terminal(t.rows.state))
  {
    hide Inv, CancelForStop, FinishResult, Unresolved;
    var a := |l.attempts| - 1;
    CurrentRow(l);
    LiveCandidateOpen(l);
    LastAttempt(l.attempts, l.generation - 1);
    CancelForStopInv(l, a);
    StopWanted(l, a);
    var m := if l.state == CancelRequested then l else CancelForStop(l, a);
    Keys(m);
    if m.attempts[a].stopped {
      FinishInv(m, a, CancelledByRequester, CancelledByRequester);
      FinishKeeps(m, a, CancelledByRequester, CancelledByRequester);
    }
  }

  lemma StopWanted(l: Ledger, a: nat)
    requires ForeignKeys(l) && a < |l.attempts|
    ensures var m := CancelForStop(l, a);
            m.state == CancelRequested && m.publications == l.publications && |m.attempts| == |l.attempts| && m.attempts[a].stopped == l.attempts[a].stopped
  {}

  // An operator's attestation ends a cancelled request whose attempt has not stopped.
  lemma Recovering(l: Ledger, key: string)
    requires Inv(l) && l.state == CancelRequested && !Unresolved(l.publications) && key !in l.recoveryActions
    requires |l.attempts| > 0 && !l.attempts[|l.attempts| - 1].stopped
    ensures ForeignKeys(l)
    ensures var m := Recover(l, |l.attempts| - 1, key, "close", l.version, Attested(false, "", true), CloseCancelled, true, false).rows;
            Inv(m) && m.state == Cancelled
  {
    hide Inv, AcceptRecoveryStop, EndRecovery, Unresolved;
    var a := |l.attempts| - 1;
    Keys(l);
    CurrentRow(l);
    NoResult(l);
    Stopping(l, a);
    RecoverInv(l, a, key, "close", l.version, Attested(false, "", true), CloseCancelled, true, false);
  }

  lemma Stopping(l: Ledger, a: nat)
    requires Inv(l) && ForeignKeys(l) && Live(l.state) && !Unresolved(l.publications) && a + 1 == |l.attempts| && !l.attempts[a].stopped
    ensures var stop := AcceptRecoveryStop(l, a, Attested(false, "", true));
            && !stop.answer.Refused? && ForeignKeys(stop.rows) && a < |stop.rows.attempts|
            && var done := EndRecovery(stop.rows, a, CloseCancelled, false);
            !done.answer.Refused? && done.rows.state == Cancelled
  {
    hide Inv, AcceptRecoveryStop, FinishResult, Unresolved;
    AttestedStops(l, a);
    RecoveryStopInv(l, a, Attested(false, "", true));
    var m := AcceptRecoveryStop(l, a, Attested(false, "", true)).rows;
    FinishInv(m, a, RecoveryReport(CloseCancelled), RecoveryReport(CloseCancelled));
  }

  lemma NoResult(l: Ledger)
    requires Inv(l) && !Terminal(l.state)
    ensures l.resultId == None
  {
    hide Scopes, Outbox, Sending, PendingResults, LockStep, Capacity, History, Stops, Retries, Publications;
  }

  lemma AttestedStops(l: Ledger, a: nat)
    requires Inv(l) && ForeignKeys(l) && a < |l.attempts| && !l.attempts[a].stopped
    ensures var t := AcceptRecoveryStop(l, a, Attested(false, "", true));
            !t.answer.Refused? && t.rows == l.(stops := t.rows.stops, attempts := t.rows.attempts)
  {
    hide InvRest, Scopes, HasStarted;
    RowFacts(l, a);
    assert FindStop(l.stops, a).Some? ==> HasStop(l.stops, a);
  }

  // A request that has ended by an ordinary step has released all its reservations.
  lemma EndedReleased(l: Ledger)
    requires Inv(l) && Terminal(l.state)
    ensures Released(l)
  {
    hide Scopes, Outbox, Sending, PendingResults, History, Stops, Retries, Publications, Results;
  }

  /* ---- over the whole state ---- */

  // A transaction of an operator always runs.
  lemma Operated(s: State, id: nat, op: Op, sight: Sight)
    requires Consistent(s) && id in s.ledgers && ByOperator(op, sight)
    ensures var t := Run(s, [Act(id, op)]);
            && Consistent(t) && id in t.ledgers && ForeignKeys(s.ledgers[id])
            && t.ledgers[id] == Perform(s.ledgers[id], op, Nobody, SlotFree(s, Nobody.slot)).rows
            && ByOperators([Act(id, op)], id, sight)
  {
    hide Perform, Consistent, SlotFree, Next, Run, ForeignKeys;
    KeptAt(s, id);
    OperatedRows(s, id, op, sight);
    RunConsistent(s, [Act(id, op)]);
    OneStep(s, Act(id, op));
  }

  lemma OperatedRows(s: State, id: nat, op: Op, sight: Sight)
    requires id in s.ledgers && ForeignKeys(s.ledgers[id]) && ByOperator(op, sight)
    ensures var t := Next(s, Act(id, op)); id in t.ledgers && t.ledgers[id] == Perform(s.ledgers[id], op, Nobody, SlotFree(s, Nobody.slot)).rows
  {
    hide Perform, SlotFree, ForeignKeys;
  }

  lemma OneStep(s: State, step: Step)
    ensures Run(s, [step]) == Next(s, step)
  {
    hide Next;
    assert [step][..0] == [];
    assert Run(s, []) == s;
  }

  // One list of operators' steps after another.
  lemma Then(s: State, id: nat, sight: Sight, before: seq<Step>, after: seq<Step>)
    requires ByOperators(before, id, sight) && ByOperators(after, id, sight)
    ensures ByOperators(before + after, id, sight) && Run(s, before + after) == Run(Run(s, before), after)
  {
    hide Run, Next, ByOperator;
    RunSplit(s, before, after);
  }

  // Every publication but, perhaps, an unknown newest one that the remote lacks is closed, and nobody holds the publisher's lock.
  predicate AtMostLacking(l: Ledger, sight: Sight) {
    && Inv(l) && l.publisher.None?
    && (Unresolved(l.publications) ==>
          && |l.publications| > 0 && l.publications[|l.publications| - 1].state == Unknown
          && Tells(sight, l.publications[|l.publications| - 1].head) == Lacks)
  }

  lemma Unlocking(s: State, id: nat, sight: Sight)
    requires Consistent(s) && id in s.ledgers && Inv(s.ledgers[id])
    ensures var t := Run(s, [Act(id, PublisherDied)]);
            && Consistent(t) && id in t.ledgers && Inv(t.ledgers[id]) && t.ledgers[id].publisher.None? && t.ledgers[id].state == s.ledgers[id].state
            && t.ledgers[id].publications == s.ledgers[id].publications
            && ByOperators([Act(id, PublisherDied)], id, sight)
  {
    hide Inv, Consistent, Run, ByOperators;
    StoppedPublisher(s.ledgers[id]);
    Operated(s, id, PublisherDied, sight);
  }

  lemma Looked(l: Ledger, sight: Sight)
    requires Inv(l) && l.publisher.None? && !Stranded(l, sight)
    ensures !Unresolved(l.publications) ==> AtMostLacking(l, sight)
    ensures Unresolved(l.publications) ==> |l.publications| > 0
    ensures Unresolved(l.publications) ==> var m := Reconcile(l, |l.publications| - 1, sight.confirms).rows; AtMostLacking(m, sight) && m.state == l.state
  {
    hide Inv, Unresolved, Reconcile;
    if Unresolved(l.publications) { Reconciled(l, sight.confirms); }
  }

  lemma Reconciling(s: State, id: nat, sight: Sight) returns (more: seq<Step>)
    requires Consistent(s) && id in s.ledgers && Inv(s.ledgers[id]) && s.ledgers[id].publisher.None? && !Stranded(s.ledgers[id], sight)
    ensures ByOperators(more, id, sight)
    ensures var t := Run(s, more); Consistent(t) && id in t.ledgers && AtMostLacking(t.ledgers[id], sight) && t.ledgers[id].state == s.ledgers[id].state
  {
    hide Inv, Consistent, Unresolved, ByOperators, Reconcile, Run, AtMostLacking, Stranded;
    more := [];
    var l := s.ledgers[id];
    NoStep(s, id, sight);
    Looked(l, sight);
    if Unresolved(l.publications) {
      more := [Act(id, ReconcilePublication(|l.publications| - 1, sight.confirms))];
      Operated(s, id, ReconcilePublication(|l.publications| - 1, sight.confirms), sight);
    }
  }

  lemma Resolving(s: State, id: nat, sight: Sight) returns (more: seq<Step>)
    requires Consistent(s) && id in s.ledgers && AtMostLacking(s.ledgers[id], sight)
    ensures ByOperators(more, id, sight)
    ensures var t := Run(s, more);
            && Consistent(t) && id in t.ledgers && Inv(t.ledgers[id]) && !Unresolved(t.ledgers[id].publications)
            && t.ledgers[id].state == s.ledgers[id].state
  {
    hide Inv, Consistent, Unresolved, ByOperators, Resolve, Run;
    more := [];
    var l := s.ledgers[id];
    NoStep(s, id, sight);
    if Unresolved(l.publications) {
      var key := FreshKey(l.resolutions.Keys);
      var attestation := Attestation("", sight.head, true);
      Attesting(l, key, attestation);
      more := [Act(id, ResolvePublication(|l.publications| - 1, key, true, attestation))];
      Operated(s, id, ResolvePublication(|l.publications| - 1, key, true, attestation), sight);
    }
  }

  lemma Settling(s: State, id: nat, sight: Sight) returns (more: seq<Step>)
    requires Consistent(s) && id in s.ledgers && Inv(s.ledgers[id]) && !Stranded(s.ledgers[id], sight)
    ensures ByOperators(more, id, sight)
    ensures var t := Run(s, more);
            && Consistent(t) && id in t.ledgers && Inv(t.ledgers[id]) && !Unresolved(t.ledgers[id].publications)
            && t.ledgers[id].state == s.ledgers[id].state
  {
    hide Inv, Consistent, Run, Unresolved, ByOperators, AtMostLacking;
    more := [Act(id, PublisherDied)];
    Unlocking(s, id, sight);
    var reconcile := Reconciling(Run(s, more), id, sight);
    Then(s, id, sight, more, reconcile);
    more := more + reconcile;
    var resolve := Resolving(Run(s, more), id, sight);
    Then(s, id, sight, more, resolve);
    more := more + resolve;
  }

  lemma CancelStep(s: State, id: nat, sight: Sight) returns (more: seq<Step>)
    requires Consistent(s) && id in s.ledgers && Inv(s.ledgers[id]) && !Terminal(s.ledgers[id].state) && !Unresolved(s.ledgers[id].publications)
    ensures ByOperators(more, id, sight)
    ensures var l, t := s.ledgers[id], Run(s, more);
            && Consistent(t) && id in t.ledgers && Inv(t.ledgers[id]) && !Unresolved(t.ledgers[id].publications)
            && (Terminal(t.ledgers[id].state) || t.ledgers[id].state == CancelRequested)
            && (l.state in {Waiting, Reserved} || (|l.attempts| > 0 && l.attempts[|l.attempts| - 1].stopped) ==> Terminal(t.ledgers[id].state))
  {
    hide Inv, Consistent, Run, Unresolved, ByOperators, Cancel;
    var l := s.ledgers[id];
    var key := FreshKey(l.cancelActions.Keys);
    Cancelling(l, key);
    more := [Act(id, CancelRequest(key, l.version, true))];
    Operated(s, id, CancelRequest(key, l.version, true), sight);
  }

  lemma LastStop(s: State, id: nat, sight: Sight) returns (more: seq<Step>)
    requires Consistent(s) && id in s.ledgers && Inv(s.ledgers[id]) && s.ledgers[id].state == CancelRequested && !Unresolved(s.ledgers[id].publications)
    ensures ByOperators(more, id, sight)
    ensures var t := Run(s, more); id in t.ledgers && Inv(t.ledgers[id]) && Terminal(t.ledgers[id].state)
  {
    hide Inv, Consistent, Run, Unresolved, ByOperators, Recover;
    var l := s.ledgers[id];
    CurrentRow(l);
    if l.attempts[|l.attempts| - 1].stopped {
      more := CancelStep(s, id, sight);
    } else {
      var key := FreshKey(l.recoveryActions.Keys);
      var recover := RecoverRequest(|l.attempts| - 1, key, "close", l.version, Attested(false, "", true), CloseCancelled, true, false);
      Recovering(l, key);
      more := [Act(id, recover)];
      Operated(s, id, recover, sight);
    }
  }

  lemma Ending(s: State, id: nat, sight: Sight) returns (more: seq<Step>)
    requires Consistent(s) && id in s.ledgers && Inv(s.ledgers[id]) && !Terminal(s.ledgers[id].state) && !Stranded(s.ledgers[id], sight)
    ensures ByOperators(more, id, sight) && EndedFree(Run(s, more), id)
  {
    hide Inv, Consistent, Run, Unresolved, ByOperators, Released;
    more := Settling(s, id, sight);
    var cancel := CancelStep(Run(s, more), id, sight);
    Then(s, id, sight, more, cancel);
    more := more + cancel;
    if !Terminal(Run(s, more).ledgers[id].state) {
      var last := LastStop(Run(s, more), id, sight);
      Then(s, id, sight, more, last);
      more := more + last;
    }
    EndedReleased(Run(s, more).ledgers[id]);
  }

  /* ---- a stranded publication ---- */

  // While the remote shows the same, no transaction settles a stranded publication; one whose publisher is alive could still be settled
  // by that publisher.
  lemma StrandedStays(l: Ledger, op: Op, i: Incarnation, free: bool, sight: Sight)
    requires ForeignKeys(l) && Stranded(l, sight) && Meets(op, sight) && (OfPublisher(op) ==> l.publisher.None? || op.PublisherDied?)
    ensures var m := Perform(l, op, i, free).rows; Stranded(m, sight) && (l.publisher.None? ==> m.publisher.None?)
  {
    if OfPublication(op) {
      SettlingStays(l, op, i, free, sight);
    } else {
      hide Perform, Stranded;
      if op.ReserveSlot? || op.ClaimAttempt? { TakingAside(l, op, i, free); } else { PerformCounts(l, op, i, free); }
      SameStranded(l, Perform(l, op, i, free).rows, sight);
    }
  }

  lemma SameStranded(l: Ledger, m: Ledger, sight: Sight)
    requires Stranded(l, sight) && Aside(l, m)
    ensures Stranded(m, sight)
  {}

  lemma SettlingStays(l: Ledger, op: Op, i: Incarnation, free: bool, sight: Sight)
    requires ForeignKeys(l) && Stranded(l, sight) && Meets(op, sight) && OfPublication(op)
    requires OfPublisher(op) ==> l.publisher.None? || op.PublisherDied?
    ensures var m := Perform(l, op, i, free).rows; Stranded(m, sight) && (l.publisher.None? ==> m.publisher.None?)
  {
    hide ForeignKeys, Stranded, Reconcile, Resolve, BeginPublish, OpenSendGate, StoreReceipt, CallPort, ReturnPort, Crash;
    if OfPublisher(op) {
      DyingStays(l, sight);
      if !op.PublisherDied? { NobodySends(l, op, i, free); }
    } else {
      match op
      case BeginPublication(a, artifact, head, authorized, publishable, seen) => AskingStays(l, a, artifact, head, authorized, publishable, sight);
      case ReconcilePublication(p, seen) => LookingStays(l, p, sight);
      case ResolvePublication(p, key, authorized, attestation) => AttestingStays(l, p, key, authorized, attestation, sight);
    }
  }

  lemma DyingStays(l: Ledger, sight: Sight)
    requires Stranded(l, sight)
    ensures Stranded(Crash(l).rows, sight) && Crash(l).rows.publisher.None?
  {}

  // Without a publisher none of its steps does anything.
  lemma NobodySends(l: Ledger, op: Op, i: Incarnation, free: bool)
    requires ForeignKeys(l) && OfPublisher(op) && !op.PublisherDied? && l.publisher.None?
    ensures Perform(l, op, i, free).rows == l
  {}

  lemma AskingStays(l: Ledger, a: nat, artifact: string, head: string, authorized: bool, publishable: bool, sight: Sight)
    requires ForeignKeys(l) && Stranded(l, sight)
    ensures var m := BeginPublish(l, a, artifact, head, authorized, publishable, sight.confirms).rows; Stranded(m, sight) && m.publisher == l.publisher
  {
    hide Reconcile;
    LookingStays(l, |l.publications| - 1, sight);
  }

  lemma LookingStays(l: Ledger, op: nat, sight: Sight)
    requires Stranded(l, sight)
    ensures var m := Reconcile(l, op, sight.confirms).rows; Stranded(m, sight) && m.publisher == l.publisher
  {}

  lemma AttestingStays(l: Ledger, op: nat, key: string, authorized: bool, attestation: Attestation, sight: Sight)
    requires Stranded(l, sight) && Truthful(attestation, sight)
    ensures var m := Resolve(l, op, key, authorized, attestation).rows; Stranded(m, sight) && m.publisher == l.publisher
  {}

  // All steps on this request meet the remote as it is; anything else may happen.
  predicate Witnessed(steps: seq<Step>, id: nat, sight: Sight) {
    forall i :: 0 <= i < |steps| && steps[i].Act? && steps[i].id == id ==> Meets(steps[i].op, sight)
  }

  // Nobody holds the publisher's lock, or who does only dies.
  predicate Abandoned(l: Ledger, steps: seq<Step>, id: nat) {
    l.publisher.None? || forall i :: 0 <= i < |steps| && steps[i].Act? && steps[i].id == id && OfPublisher(steps[i].op) ==> steps[i].op.PublisherDied?
  }

  lemma StrandedNext(s: State, step: Step, id: nat, sight: Sight)
    requires id in s.ledgers && Stranded(s.ledgers[id], sight)
    requires step.Act? && step.id == id ==> Meets(step.op, sight) && (OfPublisher(step.op) ==> s.ledgers[id].publisher.None? || step.op.PublisherDied?)
    ensures var t := Next(s, step);
            id in t.ledgers && Stranded(t.ledgers[id], sight) && (s.ledgers[id].publisher.None? ==> t.ledgers[id].publisher.None?)
  {
    hide Perform, Stranded, SlotFree, KeySpent, ForeignKeys, Meets;
    if step.Act? && step.id == id && ForeignKeys(s.ledgers[id]) {
      var i := Speaker(s, s.ledgers[id], step.op);
      if i.Some? { StrandedStays(s.ledgers[id], step.op, i.value, SlotFree(s, i.value.slot), sight); }
    }
  }

  lemma {:induction false} StrandedRun(s: State, steps: seq<Step>, id: nat, sight: Sight)
    requires id in s.ledgers && Stranded(s.ledgers[id], sight) && Witnessed(steps, id, sight) && Abandoned(s.ledgers[id], steps, id)
    ensures var t := Run(s, steps);
            id in t.ledgers && Stranded(t.ledgers[id], sight) && (s.ledgers[id].publisher.None? ==> t.ledgers[id].publisher.None?)
  {
    hide Next, Stranded, Meets;
    if |steps| > 0 {
      StrandedRun(s, steps[..|steps| - 1], id, sight);
      StrandedNext(Run(s, steps[..|steps| - 1]), steps[|steps| - 1], id, sight);
    }
  }

  // A stranded request has not ended and holds a slot.
  lemma StrandedHolds(s: State, id: nat, sight: Sight)
    requires Consistent(s) && id in s.ledgers && Stranded(s.ledgers[id], sight)
    ensures Live(s.ledgers[id].state) && !Released(s.ledgers[id])
  {
    hide Inv, Kept, Exclusive, KeysUnique, Bound, OneIncarnation;
    KeptAt(s, id);
    assert !Resolved(s.ledgers[id].publications[|s.ledgers[id].publications| - 1]);
    KeptResult(s.ledgers[id]);
    OpenIsTracked(s, id);
    OpenPublicationLive(s.ledgers[id]);
    LiveReservation(s.ledgers[id]);
  }

  // Over any steps whatever, of anyone, a stranded request whose publisher is gone neither ends nor gives its slot back, as long as the
  // remote shows the same.
  lemma StrandedForGood(steps: seq<Step>, more: seq<Step>, id: nat, sight: Sight)
    requires id in Run(Empty, steps).ledgers && Stranded(Run(Empty, steps).ledgers[id], sight)
    requires Witnessed(more, id, sight) && Abandoned(Run(Empty, steps).ledgers[id], more, id)
    ensures var t := Run(Empty, steps + more); id in t.ledgers && Stranded(t.ledgers[id], sight) && Live(t.ledgers[id].state) && !Released(t.ledgers[id])
  {
    hide Run, Consistent, Stranded, Witnessed, Abandoned, Released;
    RunSplit(Empty, steps, more);
    StrandedRun(Run(Empty, steps), more, id, sight);
    Reachable(steps + more);
    StrandedHolds(Run(Empty, steps + more), id, sight);
  }

  // An ordinary run gets there: the attempt has stopped, what was to be sent has left and its head has arrived, the answer was unknown,
  // and the rest of the operation, such as its pull request, is missing. Whatever anybody does, the request does not end.
  lemma StrandedIsReachable()
    ensures exists steps, sight ::
              && 0 in Run(Empty, steps).ledgers
              && var l := Run(Empty, steps).ledgers[0];
              && Stranded(l, sight) && l.publisher.None? && |l.attempts| == 1 && l.attempts[0].stopped && l.portCalls == [Left(0), Back(0, true)]
              && !sight.pullFound && sight.head == Some(l.publications[0].head)
              && forall more :: Witnessed(more, 0, sight) ==> var t := Run(Empty, steps + more); 0 in t.ledgers && Live(t.ledgers[0].state) && !Released(t.ledgers[0])
  {
    hide Run, Witnessed, Released;
    StandIn.Reaches();
    var steps, sight := StandIn.Steps(6), Sight(Some("head"), false, false);
    assert Run(Empty, steps).ledgers[0] == StandIn.Unsure;
    assert Stranded(StandIn.Unsure, sight);
    forall more | Witnessed(more, 0, sight)
      ensures var t := Run(Empty, steps + more); 0 in t.ledgers && Live(t.ledgers[0].state) && !Released(t.ledgers[0])
    {
      StrandedForGood(steps, more, 0, sight);
    }
  }

  /* ---- who can end a request ---- */

  // In every reachable state, and whatever the remote shows, operators can end a request with its slot released, without any
  // executor's help, exactly when it is neither wedged nor stranded; and a wedged one stays so whatever follows.
  lemma EndableExactly(steps: seq<Step>, id: nat, sight: Sight)
    requires id in Run(Empty, steps).ledgers
    ensures var l := Run(Empty, steps).ledgers[id];
            (exists more :: ByOperators(more, id, sight) && EndedFree(Run(Empty, steps + more), id)) <==> !Wedged(l) && !Stranded(l, sight)
    ensures Wedged(Run(Empty, steps).ledgers[id]) ==> forall more :: !EndedFree(Run(Empty, steps + more), id)
  {
    hide Inv, Consistent, Run, ByOperators, Sound, Released, EndedHasResult, Stranded;
    var s := Run(Empty, steps);
    Reachable(steps);
    KeptAt(s, id);
    if Wedged(s.ledgers[id]) {
      forall more ensures !EndedFree(Run(Empty, steps + more), id) { StaysWedged(steps, more, id); }
    } else if Stranded(s.ledgers[id], sight) {
      forall more | ByOperators(more, id, sight) ensures !EndedFree(Run(Empty, steps + more), id) {
        OperatorsWitness(s.ledgers[id], more, id, sight);
        StrandedForGood(steps, more, id, sight);
      }
    } else {
      var more := [];
      if Terminal(s.ledgers[id].state) {
        assert steps + [] == steps;
      } else {
        OpenIsTracked(s, id);
        more := Ending(s, id, sight);
        RunSplit(Empty, steps, more);
      }
      assert ByOperators([], id, sight) by { NoStep(s, id, sight); }
      assert ByOperators(more, id, sight) && EndedFree(Run(Empty, steps + more), id);
    }
  }

  lemma OperatorsWitness(l: Ledger, steps: seq<Step>, id: nat, sight: Sight)
    requires ByOperators(steps, id, sight)
    ensures Witnessed(steps, id, sight) && Abandoned(l, steps, id)
  {}

  lemma NoStep(s: State, id: nat, sight: Sight)
    ensures ByOperators([], id, sight) && Run(s, []) == s
  {}

  lemma OpenIsTracked(s: State, id: nat)
    requires Consistent(s) && id in s.ledgers && !Terminal(s.ledgers[id].state)
    ensures Inv(s.ledgers[id])
  {
    hide Inv, Kept, Exclusive, KeysUnique, Bound, OneIncarnation;
    assert Sound(s.ledgers[id]);
  }

  lemma StaysWedged(steps: seq<Step>, more: seq<Step>, id: nat)
    requires id in Run(Empty, steps).ledgers && Wedged(Run(Empty, steps).ledgers[id])
    ensures !EndedFree(Run(Empty, steps + more), id)
  {
    hide Run, Consistent;
    Reachable(steps);
    KeptAt(Run(Empty, steps), id);
    RunSplit(Empty, steps, more);
    EndedForever(Run(Empty, steps), more, id);
  }

  // Only a stale stop wedges a request.
  lemma OnlyStaleStopsWedge(steps: seq<Step>, id: nat)
    requires CleanFor(Empty, steps, id) && id in Run(Empty, steps).ledgers
    ensures !Wedged(Run(Empty, steps).ledgers[id])
  {
    hide Inv, Run, CleanFor, Released;
    RunTracks(Empty, steps, id);
    if Terminal(Run(Empty, steps).ledgers[id].state) { EndedReleased(Run(Empty, steps).ledgers[id]); }
  }
}
