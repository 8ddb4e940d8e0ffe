// What runs decide and never take back: results, the outbox, retries and publications.
module DispatchOutcomes {
  import opened Options
  import opened DispatchRows
  import opened DispatchRules
  import opened DispatchInvariants
  import opened DispatchEvolution
  import opened DispatchFrames
  import opened DispatchSoundness
  import opened DispatchRuns
  import opened DispatchTheorems

  /* ---- results and the outbox ---- */

  // A request has its one result exactly when it ended, and then every publication is resolved.
  lemma ResultExactlyWhenEnded(steps: seq<Step>, id: nat)
    requires id in Run(Empty, steps).ledgers
    ensures var l := Run(Empty, steps).ledgers[id];
            && (Terminal(l.state) <==> l.resultId.Some?) && (Terminal(l.state) <==> |l.results| == 1) && |l.results| <= 1
            && (Terminal(l.state) ==> l.resultId == Some(0) && l.results[0].report.outcome == l.state && !Unresolved(l.publications))
  {
    hide Next, Sound, Kept;
    Reachable(steps);
    SoundKept(Run(Empty, steps).ledgers[id]);
    KeptResult(Run(Empty, steps).ledgers[id]);
  }

  lemma KeptResult(l: Ledger)
    requires Kept(l)
    ensures (Terminal(l.state) <==> l.resultId.Some?) && (Terminal(l.state) <==> |l.results| == 1) && |l.results| <= 1 && |l.accepted| <= 1
    ensures Terminal(l.state) ==> l.resultId == Some(0) && l.results[0].report.outcome == l.state && !Unresolved(l.publications)
  {
    hide Capacity, Attempted, Stops, Scopes, Outbox, Sending, Retries, PendingResults;
  }

  // No later step leaves the terminal state or touches what it decided.
  lemma EndedStaysEnded(before: seq<Step>, after: seq<Step>, id: nat)
    requires id in Run(Empty, before).ledgers && Terminal(Run(Empty, before).ledgers[id].state)
    ensures id in Run(Empty, before + after).ledgers
    ensures Frozen(Run(Empty, before).ledgers[id], Run(Empty, before + after).ledgers[id])
  {
    hide Next, Sound, Frozen;
    RunEvolves(before, after, id);
  }

  // Every row says its version, also one written in the middle of a transaction; the first says WAITING, a terminal one is the last,
  // and it alone carries a reply, which is the result.
  predicate RowsTell(outbox: seq<Snapshot>, results: seq<Result>) {
    && |outbox| > 0 && outbox[0].state == Waiting
    && forall i :: 0 <= i < |outbox| ==>
         && outbox[i].version == i + 1
         && (Terminal(outbox[i].state) ==> i + 1 == |outbox| && |results| == 1)
         && outbox[i].reply == (if Terminal(outbox[i].state) then Some(results[0].report) else None)
  }

  // The outbox is the request's history: version v of any later state records the state the request had at version v, with
  // a reply exactly in the last, terminal row; and nothing moves without a new version.
  lemma OutboxTellsHistory(before: seq<Step>, after: seq<Step>, id: nat)
    requires id in Run(Empty, before).ledgers
    ensures id in Run(Empty, before + after).ledgers
    ensures var m := Run(Empty, before + after).ledgers[id]; RowsTell(m.outbox, m.results)
    ensures var l, m := Run(Empty, before).ledgers[id], Run(Empty, before + after).ledgers[id];
            && 0 < l.version <= m.version == |m.outbox| && |l.results| == (if Terminal(l.state) then 1 else 0)
            && m.outbox[l.version - 1].version == l.version && m.outbox[l.version - 1].state == l.state
            && m.outbox[l.version - 1].reply == (if Terminal(l.state) then Some(l.results[0].report) else None)
            && (l.version == m.version ==> l.state == m.state && l.results == m.results && l.outbox == m.outbox)
            && (Terminal(l.state) ==> l.version == m.version) && l.outbox == m.outbox[..l.version]
  {
    hide Next, Sound, Kept, Evolves, RowsTell;
    RunEvolves(before, after, id);
    SoundKept(Run(Empty, before).ledgers[id]);
    SoundKept(Run(Empty, before + after).ledgers[id]);
    KeptRows(Run(Empty, before + after).ledgers[id]);
    OutboxStep(Run(Empty, before).ledgers[id], Run(Empty, before + after).ledgers[id]);
  }

  lemma KeptRows(l: Ledger)
    requires Kept(l)
    ensures RowsTell(l.outbox, l.results)
  {
    hide Capacity, Attempted, Stops, Scopes, Sending, Retries, PendingResults, Publications;
    var last := l.outbox[l.version - 1];
    assert Terminal(last.state) ==> |l.results| == 1;
  }

  lemma OutboxStep(l: Ledger, m: Ledger)
    requires Kept(l) && Kept(m) && Evolves(l, m)
    ensures && 0 < l.version <= m.version == |m.outbox| && |l.results| == (if Terminal(l.state) then 1 else 0)
            && m.outbox[l.version - 1].version == l.version && m.outbox[l.version - 1].state == l.state
            && m.outbox[l.version - 1].reply == (if Terminal(l.state) then Some(l.results[0].report) else None)
            && (l.version == m.version ==> l.state == m.state && l.results == m.results && l.outbox == m.outbox)
            && (Terminal(l.state) ==> l.version == m.version) && l.outbox == m.outbox[..l.version]
  {
    hide Capacity, Attempted, Stops, Scopes, Sending, Retries, PendingResults, Publications, AttemptsEvolve, CandidatesEvolve,
         ReservationsEvolve, PublicationsEvolve, PermitsEvolve;
    assert m.outbox[l.version - 1] == l.outbox[l.version - 1];
  }

  // Success is stored only by a last transaction that finds the current generation running, its attempt stopped on
  // recorded evidence and every publication resolved; and what it stores is the submitted success.
  lemma SuccessNeedsStop(steps: seq<Step>, step: Step, id: nat)
    requires id in Run(Empty, steps).ledgers
    ensures id in Run(Empty, steps + [step]).ledgers
    ensures var l, m := Run(Empty, steps).ledgers[id], Run(Empty, steps + [step]).ledgers[id];
            m.state == Succeeded && l.state != Succeeded ==>
              && step.Act? && step.id == id && step.op.EndCompletion?
              && var s := step.op.submission;
              && s in l.pending && s.attempt < |l.attempts| && s.report.outcome == Succeeded
              && l.state == Running && Current(l, s.attempt) && l.attempts[s.attempt].stopped && HasStop(l.stops, s.attempt)
              && !Unresolved(l.publications) && l.results == []
              && m.results == [Result(Some(s.attempt), s.report)] && m.accepted == [ResultAccepted(s.attempt, 0, s.submitted)]
  {
    hide Sound, Inv, Kept, Perform, SlotFree, KeySpent, Exclusive, KeysUnique, Bound, OneIncarnation, Unresolved, HasStop;
    LastStep(steps, step);
    Reachable(steps);
    var s := Run(Empty, steps);
    var l := s.ledgers[id];
    SoundKept(l);
    if step.Act? && step.id == id {
      var i := Speaker(s, l, step.op);
      if i.Some? {
        var free := SlotFree(s, i.value.slot);
        if step.op.EndCompletion? {
          if Terminal(l.state) { EndedStaysKept(l, step.op, i.value, free); } else { EndSucceeds(l, step.op, i.value, free); }
        } else { OthersNeverSucceed(l, step.op, i.value, free); }
      }
    }
  }

  lemma OthersNeverSucceed(l: Ledger, op: Op, i: Incarnation, free: bool)
    requires ForeignKeys(l) && !op.EndCompletion?
    ensures Perform(l, op, i, free).rows.state == Succeeded ==> l.state == Succeeded
  {
    hide Perform;
    if op.ReserveSlot? || op.ClaimAttempt? { ReservePermits(l, op, i, free); }
    else if op.StartAttempt? || OfPort(op) { LoudNeverSucceed(l, op, i, free); }
    else { PerformCounts(l, op, i, free); }
  }

  lemma LoudNeverSucceed(l: Ledger, op: Op, i: Incarnation, free: bool)
    requires ForeignKeys(l) && (op.StartAttempt? || OfPort(op))
    ensures Perform(l, op, i, free).rows.state == Succeeded ==> l.state == Succeeded
  {
    hide Start;
    if op.StartAttempt? { LeaseCounts(l, op.a, i, op.scope, op.authorized, op.now, op.maxDuration); }
  }

  lemma EndSucceeds(l: Ledger, op: Op, i: Incarnation, free: bool)
    requires Inv(l) && ForeignKeys(l) && op.EndCompletion?
    ensures var m := Perform(l, op, i, free).rows; var s := op.submission;
            m.state == Succeeded && l.state != Succeeded ==>
              && s in l.pending && s.attempt < |l.attempts| && s.report.outcome == Succeeded
              && l.state == Running && Current(l, s.attempt) && l.attempts[s.attempt].stopped && HasStop(l.stops, s.attempt)
              && !Unresolved(l.publications) && l.results == []
              && m.results == [Result(Some(s.attempt), s.report)] && m.accepted == [ResultAccepted(s.attempt, 0, s.submitted)]
  {
    hide Inv, FinishResult, Unresolved, HasStop;
    var s := op.submission;
    if s in l.pending && s.attempt < |l.attempts| && |l.results| == 0 && Current(l, s.attempt) && !Unresolved(l.publications) {
      PendingFacts(l, s);
      if l.state == CancelRequested { CancelledNeverSucceeds(l, s); }
      else if l.state in {Claimed, Running} { RunningSucceeds(l, s, op.publishable); }
    }
  }

  lemma CancelledNeverSucceeds(l: Ledger, s: Submission)
    requires Inv(l) && l.state == CancelRequested && s.attempt < |l.attempts| && Current(l, s.attempt) && l.attempts[s.attempt].stopped && !Unresolved(l.publications)
    ensures ForeignKeys(l.(late := l.late + [LateResult(s.attempt, s.submitted)]))
    ensures FinishResult(l.(late := l.late + [LateResult(s.attempt, s.submitted)]), s.attempt, s.report.(outcome := Cancelled), s.submitted).rows.state == Cancelled
  {
    hide Inv, FinishResult, Unresolved;
    CurrentIsLast(l, s.attempt);
    LateRest(l, s);
    Keys(l.(late := l.late + [LateResult(s.attempt, s.submitted)]));
    FinishInv(l.(late := l.late + [LateResult(s.attempt, s.submitted)]), s.attempt, s.report.(outcome := Cancelled), s.submitted);
  }

  lemma RunningSucceeds(l: Ledger, s: Submission, publishable: bool)
    requires Inv(l) && ForeignKeys(l) && l.state in {Claimed, Running} && s.attempt < |l.attempts| && Current(l, s.attempt)
    requires l.attempts[s.attempt].stopped && !Unresolved(l.publications) && Terminal(s.report.outcome)
    requires s.report.outcome == Succeeded ==> l.attempts[s.attempt].scopeId.Some?
    ensures HasStop(l.stops, s.attempt) && (s.report.outcome == Succeeded ==> l.state == Running)
    ensures var report := if s.report.outcome == Succeeded && !publishable then s.report.(outcome := Failed, summary := "authorization_unavailable") else s.report;
            var m := FinishResult(l, s.attempt, report, s.submitted).rows;
            && m.state == report.outcome && m.results == [Result(Some(s.attempt), report)] && m.accepted == [ResultAccepted(s.attempt, 0, s.submitted)]
  {
    hide Inv, FinishResult, Unresolved;
    CurrentIsLast(l, s.attempt);
    RowFacts(l, s.attempt);
    var report := if s.report.outcome == Succeeded && !publishable then s.report.(outcome := Failed, summary := "authorization_unavailable") else s.report;
    FinishInv(l, s.attempt, report, s.submitted);
  }

  // A cancel committed before the result decides against it: the last transaction of any submission can only cancel, and
  // at no later time has the request succeeded.
  lemma CancelWins(before: seq<Step>, after: seq<Step>, id: nat, s: Submission, authorized: bool, publishable: bool)
    requires id in Run(Empty, before).ledgers && Run(Empty, before).ledgers[id].state == CancelRequested
    ensures id in Run(Empty, before + after).ledgers && Run(Empty, before + after).ledgers[id].state in {CancelRequested, Failed, Cancelled}
    ensures var l := Run(Empty, before).ledgers[id];
            && ForeignKeys(l)
            && var t := EndResult(l, s, authorized, publishable);
            if authorized && s in l.pending && s.attempt < |l.attempts| && Current(l, s.attempt) && !Unresolved(l.publications)
            then t.rows.state == Cancelled && t.answer == Receipt(true, 0, s.report.(outcome := Cancelled)) && t.rows.late == l.late + [LateResult(s.attempt, s.submitted)]
            else t.rows == l && t.answer.Refused?
  {
    hide Next, Sound, Inv, Kept, FinishResult, Unresolved, AttemptsEvolve, CandidatesEvolve, ReservationsEvolve, PublicationsEvolve, PermitsEvolve,
         HistoriesGrow;
    RunEvolves(before, after, id);
    SoundKept(Run(Empty, before).ledgers[id]);
    CancelledEnd(Run(Empty, before).ledgers[id], s, authorized, publishable);
  }

  lemma CancelledEnd(l: Ledger, s: Submission, authorized: bool, publishable: bool)
    requires Inv(l) && l.state == CancelRequested
    ensures ForeignKeys(l) && (s in l.pending ==> s.attempt < |l.attempts|)
    ensures var t := EndResult(l, s, authorized, publishable);
            if authorized && s in l.pending && s.attempt < |l.attempts| && Current(l, s.attempt) && !Unresolved(l.publications)
            then t.rows.state == Cancelled && t.answer == Receipt(true, 0, s.report.(outcome := Cancelled)) && t.rows.late == l.late + [LateResult(s.attempt, s.submitted)]
            else t.rows == l && t.answer.Refused?
  {
    hide Inv, Unresolved, FinishResult;
    Keys(l);
    NoResults(l);
    if s in l.pending {
      PendingFacts(l, s);
      if Current(l, s.attempt) && !Unresolved(l.publications) {
        CurrentIsLast(l, s.attempt);
        LateRest(l, s);
        var late := l.(late := l.late + [LateResult(s.attempt, s.submitted)]);
        FinishInv(late, s.attempt, s.report.(outcome := Cancelled), s.submitted);
        FinishLate(late, s.attempt, s.report.(outcome := Cancelled), s.submitted);
      }
    }
  }

  lemma FinishLate(l: Ledger, a: nat, report: Report, submitted: Report)
    requires ForeignKeys(l) && a < |l.attempts|
    ensures FinishResult(l, a, report, submitted).rows.late == l.late
  {
    hide Unresolved, Terminalize;
    var inserted := InsertResult(l, Some(a), report);
    if inserted.Some? { TerminalizeRows(Transition(inserted.value.0, report.outcome, Some(inserted.value.1)), a, report.outcome); }
  }

  // Once a result is accepted, every authorized resubmission is answered with that result for ever after: the very same
  // submission as accepted and without any effect, any other one as refused and kept as late.
  lemma ResubmissionIsAnswered(before: seq<Step>, after: seq<Step>, id: nat, a: nat, submitted: Report, intact: bool, failure: Option<string>)
    requires id in Run(Empty, before).ledgers && |Run(Empty, before).ledgers[id].results| > 0
    requires a < |Run(Empty, before).ledgers[id].attempts| && Terminal(submitted.outcome)
    ensures id in Run(Empty, before + after).ledgers
    ensures var l, m := Run(Empty, before).ledgers[id], Run(Empty, before + after).ledgers[id];
            && ForeignKeys(m)
            && var same := exists i :: 0 <= i < |l.accepted| && l.accepted[i].attempt == a && l.accepted[i].submitted == submitted;
            BeginResult(m, a, submitted, true, intact, failure)
            == Tx(if same then m else m.(late := m.late + [LateResult(a, submitted)]), Receipt(same, 0, l.results[0].report))
  {
    hide Next, Sound, Kept;
    RunEvolves(before, after, id);
    SoundKept(Run(Empty, before).ledgers[id]);
    SoundKept(Run(Empty, before + after).ledgers[id]);
    DecidedFacts(Run(Empty, before).ledgers[id], Run(Empty, before + after).ledgers[id]);
  }

  lemma DecidedFacts(l: Ledger, m: Ledger)
    requires Kept(l) && Kept(m) && ForeignKeys(m) && Evolves(l, m) && |l.results| > 0
    ensures m.results == l.results && m.accepted == l.accepted && |l.attempts| <= |m.attempts|
  {
    hide Kept, AttemptEvolves, CandidatesEvolve, ReservationsEvolve, PublicationsEvolve, PermitsEvolve, HistoriesGrow;
    KeptResult(l);
  }

  // A claim-bound stop closes the request with the failure its supervisor submits next, so that submission is an accepted replay.
  lemma ClaimBoundFailureIsReplayed(before: seq<Step>, stop: Op, after: seq<Step>, id: nat, intact: bool, failure: Option<string>)
    requires id in Run(Empty, before).ledgers && stop.StopUnstarted?
    requires var l := Run(Empty, before).ledgers[id];
             ForeignKeys(l) && l.state != CancelRequested
             && var t := SubmitClaimBoundStop(l, stop.a, stop.authorized, stop.reason, stop.digest, stop.scopedEvidence, stop.timely);
             t.answer.StopReceipt? && t.rows != l
    ensures id in Run(Empty, before + [Act(id, stop)] + after).ledgers
    ensures var m := Run(Empty, before + [Act(id, stop)] + after).ledgers[id];
            && ForeignKeys(m) && m.state == Failed
            && BeginResult(m, stop.a, ClaimBoundFailure(stop.reason), true, intact, failure) == Tx(m, Receipt(true, 0, ClaimBoundFailure(stop.reason)))
  {
    hide Next, Sound, Inv, Kept, Evolves, SubmitClaimBoundStop;
    var middle := before + [Act(id, stop)];
    Reachable(before);
    var l := Run(Empty, before).ledgers[id];
    SoundKept(l);
    if Terminal(l.state) { EndedClaimsNothing(l, stop); }
    LastStep(before, Act(id, stop));
    ClaimBoundAccepted(l, stop);
    StepRows(Run(Empty, before), id, stop);
    var n := SubmitClaimBoundStop(l, stop.a, stop.authorized, stop.reason, stop.digest, stop.scopedEvidence, stop.timely).rows;
    assert Run(Empty, middle).ledgers[id] == n;
    RunEvolves(middle, after, id);
    EndedStaysEnded(middle, after, id);
    assert n.accepted[0].attempt == stop.a;
    ResubmissionIsAnswered(middle, after, id, stop.a, ClaimBoundFailure(stop.reason), intact, failure);
  }

  lemma StepRows(s: State, id: nat, stop: Op)
    requires id in s.ledgers && ForeignKeys(s.ledgers[id]) && stop.StopUnstarted?
    ensures id in Next(s, Act(id, stop)).ledgers
    ensures Next(s, Act(id, stop)).ledgers[id]
            == SubmitClaimBoundStop(s.ledgers[id], stop.a, stop.authorized, stop.reason, stop.digest, stop.scopedEvidence, stop.timely).rows
  {
    hide SubmitClaimBoundStop;
  }

  lemma EndedClaimsNothing(l: Ledger, stop: Op)
    requires ForeignKeys(l) && stop.StopUnstarted? && Terminal(l.state)
    ensures SubmitClaimBoundStop(l, stop.a, stop.authorized, stop.reason, stop.digest, stop.scopedEvidence, stop.timely).rows == l
  {
    hide CloseUnstarted, HasStarted, Unresolved;
    assert stop.a < |l.attempts| ==> !UnstartedSignature(l, stop.a);
  }

  lemma ClaimBoundAccepted(l: Ledger, stop: Op)
    requires Inv(l) && l.state != CancelRequested && stop.StopUnstarted?
    requires var t := SubmitClaimBoundStop(l, stop.a, stop.authorized, stop.reason, stop.digest, stop.scopedEvidence, stop.timely);
             t.answer.StopReceipt? && t.rows != l
    ensures var m := SubmitClaimBoundStop(l, stop.a, stop.authorized, stop.reason, stop.digest, stop.scopedEvidence, stop.timely).rows;
            && Inv(m) && m.state == Failed && stop.a < |m.attempts|
            && m.results == [Result(Some(stop.a), ClaimBoundFailure(stop.reason))]
            && m.accepted == [ResultAccepted(stop.a, 0, ClaimBoundFailure(stop.reason))]
  {
    hide Inv, CloseUnstarted, CandidatesEvolve, ReservationsEvolve, PublicationsEvolve, PermitsEvolve, HistoriesGrow;
    CloseUnstartedInv(l, stop.a, ClaimBound, stop.digest, ClaimBoundFailure(stop.reason), StopReceipt(|l.stops|));
    Keys(l);
    UnstartedEvolves(l, stop.a, ClaimBound, stop.digest, ClaimBoundFailure(stop.reason), StopReceipt(|l.stops|));
  }

  /* ---- retries ---- */

  // One attempt for the first claim and one for every consumed authorization, each authorization consumed once; all attempts
  // but the newest are terminal, stopped and revoked on recorded evidence, and no candidate has two.
  lemma RetriesAreSingleUse(steps: seq<Step>, id: nat)
    requires id in Run(Empty, steps).ledgers
    ensures var l := Run(Empty, steps).ledgers[id];
            && |l.attempts| == |l.consumed| + (if l.firstClaimed then 1 else 0)
            && (forall i, j :: 0 <= i < j < |l.consumed| ==> l.consumed[i].authorization != l.consumed[j].authorization)
            && (forall i :: 0 <= i < |l.consumed| ==> l.consumed[i].authorization < |l.authorizations| && l.consumed[i].attempt == i + 1)
            && (forall a :: 0 <= a && a + 1 < |l.attempts| ==> Over(l, a))
            && (forall a, b :: 0 <= a < b < |l.attempts| ==> l.attempts[a].candidate != l.attempts[b].candidate)
  {
    hide Sound, Kept, Next;
    Reachable(steps);
    SoundKept(Run(Empty, steps).ledgers[id]);
    SingleUse(Run(Empty, steps).ledgers[id]);
  }

  predicate Over(l: Ledger, a: nat)
    requires a < |l.attempts|
  {
    Terminal(l.attempts[a].status) && l.attempts[a].stopped && l.attempts[a].revoked && HasStop(l.stops, a)
  }

  lemma SingleUse(l: Ledger)
    requires Kept(l)
    ensures |l.attempts| == |l.consumed| + (if l.firstClaimed then 1 else 0)
    ensures forall i, j :: 0 <= i < j < |l.consumed| ==> l.consumed[i].authorization != l.consumed[j].authorization
    ensures forall i :: 0 <= i < |l.consumed| ==> l.consumed[i].authorization < |l.authorizations| && l.consumed[i].attempt == i + 1
    ensures forall a :: 0 <= a && a + 1 < |l.attempts| ==> Over(l, a)
    ensures forall a, b :: 0 <= a < b < |l.attempts| ==> l.attempts[a].candidate != l.attempts[b].candidate
  {
    hide Scopes, Results, Outbox, Sending, PendingResults, Publications, Capacity;
    forall a | 0 <= a && a + 1 < |l.attempts| ensures Over(l, a) { assert Settled(l.candidates, l.attempts[a]); }
  }

  // As long as no stale stop hits the request, the newest attempt too is over once the request is not live.
  lemma NewestAttemptIsOver(steps: seq<Step>, id: nat)
    requires CleanFor(Empty, steps, id) && id in Run(Empty, steps).ledgers
    requires var l := Run(Empty, steps).ledgers[id]; |l.attempts| > 0 && !Live(l.state)
    ensures var l := Run(Empty, steps).ledgers[id]; Over(l, |l.attempts| - 1)
  {
    hide Inv, Next, Stale;
    RunTracks(Empty, steps, id);
    LastIsOver(Run(Empty, steps).ledgers[id]);
  }

  lemma LastIsOver(l: Ledger)
    requires Inv(l) && |l.attempts| > 0 && !Live(l.state)
    ensures Over(l, |l.attempts| - 1)
  {
    hide Scopes, Results, Outbox, Sending, PendingResults, Publications, LockStep, Capacity;
    assert Settled(l.candidates, l.attempts[|l.attempts| - 1]);
  }

  // In a reachable state the retry rule never refuses: whenever a claimed request waits or is reserved again, its
  // authorization is recorded, unconsumed, of the right generation, and nothing of the request is open.
  lemma RetriedRequestIsNeverStuck(steps: seq<Step>, id: nat)
    requires id in Run(Empty, steps).ledgers
    requires var l := Run(Empty, steps).ledgers[id]; l.firstClaimed && l.state in {Waiting, Reserved}
    ensures RetryAuthority(Run(Empty, steps).ledgers[id])
  {
    hide Sound, Inv, Kept, Next, RetryAuthority;
    Reachable(steps);
    SoundKept(Run(Empty, steps).ledgers[id]);
    WaitingIsAuthorized(Run(Empty, steps).ledgers[id]);
  }

  lemma WaitingIsAuthorized(l: Ledger)
    requires Inv(l) && l.firstClaimed && l.state in {Waiting, Reserved}
    ensures RetryAuthority(l)
  {
    hide Scopes, Results, Outbox, Sending, PendingResults, LockStep, Capacity, Stops, Publications;
    UnclaimedPublications(l);
    forall a | 0 <= a < |l.attempts|
      ensures Terminal(l.attempts[a].status) && l.attempts[a].stopped && l.attempts[a].revoked && HasStop(l.stops, a)
    {
      assert Settled(l.candidates, l.attempts[a]);
      StoppedHasStop(l, a);
    }
  }

  lemma StoppedHasStop(l: Ledger, a: nat)
    requires Inv(l) && a < |l.attempts| && l.attempts[a].stopped
    ensures HasStop(l.stops, a)
  {
    hide Scopes, Results, Outbox, Sending, PendingResults, LockStep, Capacity, Publications, History, Retries;
  }

  /* ---- publications ---- */

  // What the publisher at the send gate may add to the record of calls: that the call leaves for its operation, which was never
  // called before, or that the one call of its operation has come back.
  predicate PortMoves(l: Ledger, m: Ledger, op: Op) {
    && OfPort(op) && l.publisher.Some? && l.publisher.value.op < |l.publications|
    && var p := l.publisher.value.op;
    && m.publications == l.publications && l.publications[p].state == Sent
    && if op.PortCalled? then m.portCalls == l.portCalls + [Left(p)] && !Called(l.portCalls, p)
       else m.portCalls == l.portCalls + [Back(p, op.issued)] && forall i :: 0 <= i < |l.portCalls| && l.portCalls[i].op == p ==> l.portCalls[i].Left?
  }

  // The sending port is called only by the publisher that opened the gate of this very operation, and never twice for it, whether
  // or not the publisher lives to see the call come back.
  lemma SentOnceBehindTheGate(steps: seq<Step>, step: Step, id: nat)
    requires id in Run(Empty, steps).ledgers
    ensures id in Run(Empty, steps + [step]).ledgers
    ensures var l, m := Run(Empty, steps).ledgers[id], Run(Empty, steps + [step]).ledgers[id];
            m.portCalls != l.portCalls ==> step.Act? && step.id == id && PortMoves(l, m, step.op)
  {
    hide Sound, Kept, Perform, SlotFree, KeySpent, Exclusive, KeysUnique, Bound, OneIncarnation, PortMoves;
    LastStep(steps, step);
    Reachable(steps);
    var s := Run(Empty, steps);
    var l := s.ledgers[id];
    SoundKept(l);
    if step.Act? && step.id == id {
      var i := Speaker(s, l, step.op);
      if i.Some? { PerformCalls(l, step.op, i.value, SlotFree(s, i.value.slot)); }
    }
  }

  lemma PerformCalls(l: Ledger, op: Op, i: Incarnation, free: bool)
    requires Kept(l) && ForeignKeys(l)
    ensures var m := Perform(l, op, i, free).rows; m.portCalls != l.portCalls ==> PortMoves(l, m, op)
  {
    hide Kept, Perform, PortMoves;
    if OfPort(op) { PortCalls(l, op, i, free); }
    else if op.ReserveSlot? || op.ClaimAttempt? { ReservePermits(l, op, i, free); }
    else if op.StartAttempt? || op.EndCompletion? { LoudCalls(l, op, i, free); }
    else { PerformCounts(l, op, i, free); }
  }

  lemma LoudCalls(l: Ledger, op: Op, i: Incarnation, free: bool)
    requires ForeignKeys(l) && (op.StartAttempt? || op.EndCompletion?)
    ensures Perform(l, op, i, free).rows.portCalls == l.portCalls
  {
    hide Start, EndResult;
    if op.StartAttempt? { LeaseCounts(l, op.a, i, op.scope, op.authorized, op.now, op.maxDuration); }
    else { EndCounts(l, op.submission, op.authorized, op.publishable); }
  }

  lemma PortCalls(l: Ledger, op: Op, i: Incarnation, free: bool)
    requires Kept(l) && ForeignKeys(l) && OfPort(op)
    ensures var m := Perform(l, op, i, free).rows; m.portCalls != l.portCalls ==> PortMoves(l, m, op)
  {
    hide Scopes, Results, Outbox, PendingResults, Capacity, Attempted, Stops, Retries, Publications;
  }

  // In every reachable state at most one publication is unresolved, no operation was called twice or before its gate was
  // opened, and a failed operation that no operator resolved was never called, or its call came back and had issued nothing.
  lemma PublicationsAreSafe(steps: seq<Step>, id: nat)
    requires id in Run(Empty, steps).ledgers
    ensures var l := Run(Empty, steps).ledgers[id];
            && (forall p, q :: 0 <= p < |l.publications| && 0 <= q < |l.publications| && !Resolved(l.publications[p]) && !Resolved(l.publications[q]) ==> p == q)
            && (forall i, j :: 0 <= i < j < |l.portCalls| && l.portCalls[i].op == l.portCalls[j].op ==> l.portCalls[i].Left? && l.portCalls[j].Back?)
            && (forall i :: 0 <= i < |l.portCalls| ==>
                  var p := l.portCalls[i].op;
                  && p < |l.publications| && l.publications[p].state != Prepared
                  && (l.publications[p].state == PublicationFailed ==> ByAction(l.resolutions, p) || Unissued(l.portCalls, p)))
  {
    hide Next, Sound, Scopes, Results, Outbox, PendingResults, Capacity, Attempted, Stops, Retries;
    Reachable(steps);
    SoundKept(Run(Empty, steps).ledgers[id]);
  }

  // A confirmed or failed publication never changes again, and no operation ever changes its target.
  lemma ResolvedForever(before: seq<Step>, after: seq<Step>, id: nat, op: nat)
    requires id in Run(Empty, before).ledgers && op < |Run(Empty, before).ledgers[id].publications|
    ensures id in Run(Empty, before + after).ledgers && op < |Run(Empty, before + after).ledgers[id].publications|
    ensures var p, q := Run(Empty, before).ledgers[id].publications[op], Run(Empty, before + after).ledgers[id].publications[op];
            && q == p.(state := q.state) && (Resolved(p) ==> q == p) && (q.state == Prepared ==> p.state == Prepared)
  {
    hide Next, Sound, AttemptsEvolve, CandidatesEvolve, ReservationsEvolve, PermitsEvolve, HistoriesGrow;
    RunEvolves(before, after, id);
    assert PublicationEvolves(Run(Empty, before).ledgers[id].publications[op], Run(Empty, before + after).ledgers[id].publications[op]);
  }

  // Reconciliation sends nothing. It fails an operation only if the port was never called for it: one that was can become
  // confirmed or unknown, never failed.
  lemma ReconcileNeverFailsASend(steps: seq<Step>, id: nat, op: nat, seen: bool)
    requires id in Run(Empty, steps).ledgers
    ensures var l := Run(Empty, steps).ledgers[id]; var t := Reconcile(l, op, seen);
            && t.rows.portCalls == l.portCalls
            && (op < |l.publications| && t.rows.publications != l.publications ==>
                  && !Resolved(l.publications[op]) && t.rows.publications == l.publications[op := l.publications[op].(state := t.rows.publications[op].state)]
                  && (t.rows.publications[op].state == PublicationFailed <==> l.publications[op].state == Prepared)
                  && (Called(l.portCalls, op) ==> t.rows.publications[op].state in {Confirmed, Unknown}))
  {
    hide Next, Sound, Scopes, Results, Outbox, PendingResults, Capacity, Attempted, Stops, Retries, Publications;
    Reachable(steps);
    SoundKept(Run(Empty, steps).ledgers[id]);
  }
}
