// What holds of the rows of one request in every reachable state.
module DispatchInvariants {
  import opened Options
  import opened DispatchRows
  import opened DispatchRules

  // A reservation is open exactly while its candidate is neither finished nor retired,
  // and only the newest generation can be open.
  predicate Capacity(candidates: seq<Candidate>, reservations: seq<Reservation>) {
    && |candidates| == |reservations|
    && (forall k :: 0 <= k < |candidates| ==> (reservations[k].released <==> Closed(candidates[k])))
    && (forall k :: 0 <= k < |candidates| ==> reservations[k].slot == candidates[k].slot)
    && (forall k :: 0 <= k < |candidates| && !Closed(candidates[k]) ==> k + 1 == |candidates|)
    && (forall k :: 0 <= k < |candidates| ==> (candidates[k].claimed <==> candidates[k].status !in {Reserved, Retired}))
  }

  // Request, current candidate and its attempt carry one status.
  predicate LockStep(state: Status, candidates: seq<Candidate>, attempts: seq<Attempt>) {
    && (state in {Waiting, Reserved} || Live(state) || Terminal(state))
    && (state == Waiting || Terminal(state) ==> forall k :: 0 <= k < |candidates| ==> Closed(candidates[k]))
    && (state == Reserved ==> |candidates| > 0 && candidates[|candidates| - 1].status == Reserved)
    && (Live(state) ==>
          && |candidates| > 0 && |attempts| > 0
          && var c, a := candidates[|candidates| - 1], attempts[|attempts| - 1];
          a.candidate + 1 == |candidates| && c.status == state && a.status == state && c.incarnation == Some(a.incarnation))
  }

  predicate Settled(candidates: seq<Candidate>, a: Attempt) {
    && Terminal(a.status) && a.stopped && a.revoked
    && a.candidate < |candidates| && candidates[a.candidate].status == Finished
  }

  // Every attempt but a live current one is terminal, stopped and revoked; each candidate has at most one.
  predicate History(state: Status, candidates: seq<Candidate>, attempts: seq<Attempt>) {
    && (forall a, b :: 0 <= a < b < |attempts| ==> attempts[a].candidate < attempts[b].candidate)
    && (forall a :: 0 <= a < |attempts| ==> attempts[a].candidate < |candidates| && candidates[attempts[a].candidate].claimed)
    && (forall k :: 0 <= k < |candidates| && candidates[k].claimed ==> AttemptOf(attempts, k).Some?)
    && (forall a :: 0 <= a < |attempts| ==> Settled(candidates, attempts[a]) || (Live(state) && a + 1 == |attempts|))
    && (forall a :: 0 <= a < |attempts| && attempts[a].status == CancelRequested ==> attempts[a].revoked)
  }

  // An attempt is stopped exactly when its one stop was accepted, and then it is revoked.
  predicate Stops(attempts: seq<Attempt>, stops: seq<StopAccepted>) {
    && (forall a :: 0 <= a < |attempts| ==> (attempts[a].stopped <==> HasStop(stops, a)))
    && (forall a :: 0 <= a < |attempts| && attempts[a].stopped ==> attempts[a].revoked)
    && (forall i :: 0 <= i < |stops| ==> stops[i].attempt < |attempts|)
    && (forall i, j :: 0 <= i < j < |stops| ==> stops[i].attempt != stops[j].attempt)
  }

  predicate PermitRecorded(started: seq<StartedScope>, p: StartPermit) {
    exists i :: 0 <= i < |started| && started[i] == StartedScope(p.attempt, p.scope)
  }

  // An attempt has a scope exactly when it was started once, and every permit names that scope.
  predicate Scopes(attempts: seq<Attempt>, started: seq<StartedScope>, permits: seq<StartPermit>) {
    && (forall a :: 0 <= a < |attempts| ==> (attempts[a].scopeId.Some? <==> HasStarted(started, a)))
    && (forall a :: 0 <= a < |attempts| ==> (attempts[a].scopeId.Some? <==> attempts[a].startedAt.Some?))
    && (forall a :: 0 <= a < |attempts| && attempts[a].status == Claimed ==> attempts[a].scopeId.None?)
    && (forall a :: 0 <= a < |attempts| && attempts[a].status == Running ==> attempts[a].scopeId.Some?)
    && (forall i :: 0 <= i < |started| ==> started[i].attempt < |attempts| && attempts[started[i].attempt].scopeId == Some(started[i].scope.scopeId))
    && (forall i, j :: 0 <= i < j < |started| ==> started[i].attempt != started[j].attempt)
    && (forall p :: 0 <= p < |permits| ==> PermitRecorded(started, permits[p])
                                           && permits[p].attempt < |attempts| && permits[p].incarnation == attempts[permits[p].attempt].incarnation)
  }

  predicate Results(state: Status, resultId: Option<nat>, results: seq<Result>, accepted: seq<ResultAccepted>, attempts: seq<Attempt>) {
    && |results| <= 1 && |accepted| <= 1
    && (Terminal(state) <==> |results| == 1)
    && resultId == (if |results| == 1 then Some(0) else None)
    && (|results| == 1 ==>
          && results[0].report.outcome == state
          && (results[0].attempt.Some? <==> |accepted| == 1)
          && (results[0].attempt.Some? ==> results[0].attempt.value < |attempts| && attempts[results[0].attempt.value].status == state)
          && (state == Succeeded ==> results[0].attempt.Some? && attempts[results[0].attempt.value].scopeId.Some?))
    && (|accepted| == 1 ==> |results| == 1 && accepted[0].resultId == 0 && results[0].attempt == Some(accepted[0].attempt))
  }

  // The outbox holds versions 1..version once each, the newest recording the current state.
  predicate Outbox(state: Status, version: nat, outbox: seq<Snapshot>, results: seq<Result>) {
    && version == |outbox| > 0
    && outbox[0].state == Waiting
    && outbox[version - 1].state == state
    && (forall i :: 0 <= i < |outbox| ==> outbox[i].version == i + 1)
    && (forall i :: 0 <= i < |outbox| ==> (outbox[i].reply.Some? <==> Terminal(outbox[i].state)))
    && (forall i :: 0 <= i < |outbox| && Terminal(outbox[i].state) ==> i + 1 == version)
    && (|results| > 0 ==> outbox[version - 1].reply == Some(results[0].report))
  }

  // At most the newest publication is unresolved, and it fences a stopped attempt's request.
  predicate Publications(state: Status, publications: seq<Publication>, attempts: seq<Attempt>) {
    && (forall i :: 0 <= i < |publications| ==> publications[i].attempt < |attempts|)
    && (forall i :: 0 <= i < |publications| && !Resolved(publications[i]) ==>
          i + 1 == |publications| && state in {Running, CancelRequested}
          && publications[i].attempt + 1 == |attempts| && attempts[publications[i].attempt].stopped)
  }

  predicate Called(calls: seq<PortCall>, op: nat) {
    exists i :: 0 <= i < |calls| && calls[i].op == op
  }

  // The call of this operation came back and had issued nothing.
  predicate Unissued(calls: seq<PortCall>, op: nat) {
    exists i :: 0 <= i < |calls| && calls[i] == Back(op, false)
  }

  // The port is called at most once per operation and only behind the send gate, and the call comes back at most once; an
  // operation that was called and failed, and that no operator resolved, came back and had issued nothing.
  predicate Sending(publications: seq<Publication>, calls: seq<PortCall>, resolutions: map<string, Resolution>, publisher: Option<Publisher>) {
    && (forall i :: 0 <= i < |calls| ==> calls[i].op < |publications| && publications[calls[i].op].state != Prepared)
    && (forall i, j :: 0 <= i < j < |calls| && calls[i].op == calls[j].op ==> calls[i].Left? && calls[j].Back?)
    && (forall i :: 0 <= i < |calls| && publications[calls[i].op].state == PublicationFailed ==>
          ByAction(resolutions, calls[i].op) || Unissued(calls, calls[i].op))
    && match publisher
       case None => true
       case Some(ToSend(op)) => op + 1 == |publications| && publications[op].state == Prepared
       case Some(ToCall(op)) => op + 1 == |publications| && publications[op].state == Sent && !Called(calls, op)
       case Some(ToReturn(op)) =>
         && op + 1 == |publications| && publications[op].state == Sent
         && (forall i :: 0 <= i < |calls| && calls[i].op == op ==> calls[i].Left?)
       case Some(ToStore(op, status)) =>
         op + 1 == |publications| && publications[op].state == Sent && (status == SaysFailed ==> Unissued(calls, op))
  }

  // One attempt per first claim or consumed authorization, and no authorization is consumed twice.
  predicate Retries(state: Status, generation: nat, firstClaimed: bool, authorization: Option<nat>, attempts: nat,
                    authorizations: seq<RetryAuthorized>, consumed: seq<RetryConsumed>) {
    && attempts == |consumed| + (if firstClaimed then 1 else 0)
    && |authorizations| == |consumed| + (if authorization.Some? then 1 else 0)
    && (forall i :: 0 <= i < |consumed| ==> consumed[i] == RetryConsumed(i, i + 1))
    && (authorization.Some? ==> authorization.value == |consumed| && firstClaimed && !Live(state))
    && (state in {Waiting, Reserved} && firstClaimed ==>
          authorization.Some? && authorizations[|consumed|].generation + (if state == Waiting then 0 else 1) == generation)
  }

  predicate PendingResults(attempts: seq<Attempt>, pending: multiset<Submission>) {
    forall s :: s in pending ==> s.attempt < |attempts| && attempts[s.attempt].stopped && Terminal(s.report.outcome)
                                 && (s.report.outcome == Succeeded ==> attempts[s.attempt].scopeId.Some?)
  }

  // Everything but the scopes, which a start changes together with the attempt.
  predicate InvRest(l: Ledger) {
    && l.generation == |l.candidates| && (l.firstClaimed <==> |l.attempts| > 0)
    && Capacity(l.candidates, l.reservations)
    && LockStep(l.state, l.candidates, l.attempts)
    && History(l.state, l.candidates, l.attempts)
    && Stops(l.attempts, l.stops)
    && Results(l.state, l.resultId, l.results, l.accepted, l.attempts)
    && Outbox(l.state, l.version, l.outbox, l.results)
    && Publications(l.state, l.publications, l.attempts)
    && Sending(l.publications, l.portCalls, l.resolutions, l.publisher)
    && Retries(l.state, l.generation, l.firstClaimed, l.retryAuthorization, |l.attempts|, l.authorizations, l.consumed)
    && PendingResults(l.attempts, l.pending)
  }

  predicate Inv(l: Ledger) {
    ForeignKeys(l) && InvRest(l) && Scopes(l.attempts, l.startedScopes, l.permits)
  }

  /* ---- how elementary updates keep the parts ---- */

  lemma OutboxGrows(l: Ledger, next: Status, result: Option<nat>)
    requires !Terminal(l.state) && l.version == |l.outbox| > 0 && l.outbox[0].state == Waiting
    requires forall i :: 0 <= i < |l.outbox| ==> l.outbox[i].version == i + 1 && l.outbox[i].reply.None? && !Terminal(l.outbox[i].state)
    requires l.resultId.None? && (result.Some? <==> Terminal(next)) && (result.Some? ==> result.value == 0 < |l.results|) && |l.results| <= 1
    requires result.None? ==> |l.results| == 0
    ensures var t := Transition(l, next, result); Outbox(t.state, t.version, t.outbox, t.results)
  {}

  // The precondition above, from the parts of the invariant.
  lemma OutboxOpen(l: Ledger)
    requires Outbox(l.state, l.version, l.outbox, l.results) && !Terminal(l.state)
    ensures forall i :: 0 <= i < |l.outbox| ==> l.outbox[i].version == i + 1 && l.outbox[i].reply.None? && !Terminal(l.outbox[i].state)
  {
    assert !Terminal(l.outbox[l.version - 1].state);
  }

  lemma CapacityGrows(cs: seq<Candidate>, rs: seq<Reservation>, c: Candidate)
    requires Capacity(cs, rs) && c.status == Reserved && !c.claimed
    requires forall k :: 0 <= k < |cs| ==> Closed(cs[k])
    ensures Capacity(cs + [c], rs + [Reservation(c.slot, false)])
  {}

  lemma HistoryGrows(state: Status, next: Status, cs: seq<Candidate>, attempts: seq<Attempt>, c: Candidate)
    requires History(state, cs, attempts) && !Live(state) && !c.claimed
    ensures History(next, cs + [c], attempts)
  {}

  lemma CandidateCloses(cs: seq<Candidate>, rs: seq<Reservation>, k: nat, status: Status)
    requires Capacity(cs, rs) && k + 1 == |cs|
    requires (status == Retired && !cs[k].claimed) || (status == Finished && cs[k].claimed)
    ensures var cs' := cs[k := cs[k].(status := status)];
            Capacity(cs', rs[k := rs[k].(released := true)]) && forall j :: 0 <= j < |cs| ==> Closed(cs'[j])
  {}

  lemma HistoryRetires(state: Status, next: Status, cs: seq<Candidate>, attempts: seq<Attempt>, k: nat)
    requires History(state, cs, attempts) && !Live(state) && k < |cs| && !cs[k].claimed
    ensures History(next, cs[k := cs[k].(status := Retired)], attempts)
  {
    var cs' := cs[k := cs[k].(status := Retired)];
    forall a | 0 <= a < |attempts| ensures Settled(cs', attempts[a]) { assert Settled(cs, attempts[a]); }
  }

  /* ---- transactions ---- */

  lemma SubmittedInv()
    ensures Inv(Submitted())
  {}

  lemma PrepareInv(l: Ledger, valid: bool)
    requires Inv(l)
    ensures Inv(Prepare(l, valid).rows)
  {}

  lemma ReserveInv(l: Ledger, route: Route, incarnation: nat, slot: nat, slotFree: bool, eligible: bool, now: int)
    requires Inv(l)
    ensures Inv(Reserve(l, route, incarnation, slot, slotFree, eligible, now).rows)
  {
    hide Capacity, Stops, Scopes, Sending, History, RetryAuthority, Publications, PendingResults;
    var t := Reserve(l, route, incarnation, slot, slotFree, eligible, now);
    if t.rows != l {
      var c := Candidate(route, if route == Host then Some(incarnation) else None, slot, Reserved, false, now + LEASE_MS);
      OutboxOpen(l);
      OutboxGrows(l, Reserved, None);
      CapacityGrows(l.candidates, l.reservations, c);
      HistoryGrows(l.state, Reserved, l.candidates, l.attempts, c);
      UnclaimedPublications(l);
      ResolvedAnywhere(l.state, Reserved, l.publications, l.attempts);
    }
  }

  lemma RetireInv(l: Ledger, jobIdle: bool, now: int)
    requires Inv(l)
    ensures Inv(Retire(l, jobIdle, now).rows)
  {
    hide Capacity, Stops, Scopes, Sending, History, Publications, PendingResults, RetireOpen;
    if Retire(l, jobIdle, now).rows != l {
      UnclaimedPublications(l);
      ResolvedAnywhere(l.state, Waiting, l.publications, l.attempts);
      RetireOpenParts(l, Waiting);
      OutboxOpen(l);
      OutboxGrows(RetireOpen(l), Waiting, None);
    }
  }

  lemma RejectInv(l: Ledger, reason: string, jobIdle: bool)
    requires Inv(l)
    ensures Inv(RejectUnstarted(l, reason, jobIdle).rows)
  {
    hide InvRest, Scopes, RetireOpen, RetryAuthority, Transition, Capacity, History;
    if l.state in {Waiting, Reserved} {
      RetireOpenParts(l, Failed);
      RetireUnstarted(l, Result(None, CouldNotStart(reason)));
    }
  }

  lemma RetireOpenParts(l: Ledger, next: Status)
    requires Inv(l) && l.state in {Waiting, Reserved}
    ensures var r := RetireOpen(l);
            && r == l.(candidates := r.candidates, reservations := r.reservations)
            && |r.candidates| == |l.candidates| == |r.reservations| && Capacity(r.candidates, r.reservations)
            && History(next, r.candidates, l.attempts)
            && forall k :: 0 <= k < |r.candidates| ==> Closed(r.candidates[k])
  {
    var open := OpenCandidate(l);
    if open.Some? {
      CandidateCloses(l.candidates, l.reservations, open.value, Retired);
      HistoryRetires(l.state, next, l.candidates, l.attempts, open.value);
    }
  }

  lemma UnstartedEnds(l: Ledger, r: Result)
    requires Inv(l) && l.state in {Waiting, Reserved} && r.attempt.None? && r.report.outcome in {Failed, Cancelled}
    ensures l.results == [] && l.version == |l.outbox| > 0 && l.outbox[0].state == Waiting && l.resultId == None
    ensures Results(r.report.outcome, Some(0), [r], l.accepted, l.attempts)
    ensures Retries(r.report.outcome, l.generation, l.firstClaimed, l.retryAuthorization, |l.attempts|, l.authorizations, l.consumed)
    ensures forall cs: seq<Candidate> :: (forall k :: 0 <= k < |cs| ==> Closed(cs[k])) ==> LockStep(r.report.outcome, cs, l.attempts)
  {
    hide Capacity, Stops, Scopes, Sending, History, Publications, PendingResults;
  }

  // A request without a live attempt ends with a result no attempt gave.
  lemma RetireUnstarted(l: Ledger, r: Result)
    requires Inv(l) && l.state in {Waiting, Reserved}
    requires r.attempt.None? && r.report.outcome in {Failed, Cancelled}
    ensures Inv(Transition(RetireOpen(l).(results := l.results + [r]), r.report.outcome, Some(|l.results|)))
  {
    hide Capacity, Stops, Scopes, Sending, History, Publications, PendingResults, RetireOpen, LockStep, Results, Retries, Outbox;
    UnclaimedPublications(l);
    ResolvedAnywhere(l.state, r.report.outcome, l.publications, l.attempts);
    RetireOpenParts(l, r.report.outcome);
    OutboxOpen(l);
    UnstartedEnds(l, r);
    assert l.results + [r] == [r];
    OutboxGrows(RetireOpen(l).(results := l.results + [r]), r.report.outcome, Some(0));
    var m := RetireOpen(l);
    assert LockStep(r.report.outcome, m.candidates, l.attempts);
    assert ForeignKeys(m.(results := [r]));
  }

  /* ---- claim ---- */

  lemma HistoryClaims(cs: seq<Candidate>, attempts: seq<Attempt>, c: Candidate, row: Attempt)
    requires History(Reserved, cs, attempts) && |cs| > 0 && cs[|cs| - 1].status == Reserved
    requires !cs[|cs| - 1].claimed && c.claimed && c.status == Claimed && row.candidate + 1 == |cs| && row.status == Claimed
    ensures History(Claimed, cs[|cs| - 1 := c], attempts + [row])
  {
    var k := |cs| - 1;
    var cs', attempts' := cs[k := c], attempts + [row];
    forall a | 0 <= a < |attempts| ensures attempts[a].candidate < k && Settled(cs', attempts'[a]) {
      assert Settled(cs, attempts[a]);
    }
    forall j | 0 <= j < |cs'| && cs'[j].claimed ensures AttemptOf(attempts', j).Some? {
      assert attempts'[..|attempts|] == attempts;
      if j != k { assert cs[j].claimed; }
    }
  }

  lemma StopsClaim(attempts: seq<Attempt>, stops: seq<StopAccepted>, row: Attempt)
    requires Stops(attempts, stops) && !row.stopped
    ensures Stops(attempts + [row], stops)
  {}

  lemma ScopesClaim(attempts: seq<Attempt>, started: seq<StartedScope>, permits: seq<StartPermit>, row: Attempt)
    requires Scopes(attempts, started, permits) && row.scopeId.None? && row.startedAt.None? && row.status == Claimed
    ensures Scopes(attempts + [row], started, permits)
  {}

  lemma PublicationsClaim(publications: seq<Publication>, attempts: seq<Attempt>, row: Attempt)
    requires Publications(Reserved, publications, attempts)
    ensures Publications(Claimed, publications, attempts + [row])
  {}

  lemma PendingClaim(attempts: seq<Attempt>, pending: multiset<Submission>, row: Attempt)
    requires PendingResults(attempts, pending)
    ensures PendingResults(attempts + [row], pending)
  {}

  // The newest candidate moves on, keeping its reservation open; at a claim both move to the claimer's slot.
  lemma CapacityMoves(cs: seq<Candidate>, rs: seq<Reservation>, c: Candidate)
    requires Capacity(cs, rs) && |cs| > 0 && !Closed(cs[|cs| - 1]) && Live(c.status) && c.claimed
    ensures Capacity(cs[|cs| - 1 := c], rs[|cs| - 1 := rs[|cs| - 1].(slot := c.slot)])
  {}

  lemma ClaimInv(l: Ledger, incarnation: nat, i: Incarnation, claimKey: string, free: bool, authorized: bool, eligible: bool, now: int)
    requires Inv(l)
    ensures Inv(Claim(l, incarnation, i, claimKey, free, authorized, eligible, now).rows)
  {
    hide Capacity, Stops, Scopes, Sending, History, RetryAuthority, Publications, PendingResults;
    var t := Claim(l, incarnation, i, claimKey, free, authorized, eligible, now).rows;
    if t != l {
      var k := l.generation - 1;
      var row := Attempt(k, incarnation, claimKey, Claimed, None, None, now, false, false);
      CapacityMoves(l.candidates, l.reservations, t.candidates[k]);
      HistoryClaims(l.candidates, l.attempts, t.candidates[k], row);
      StopsClaim(l.attempts, l.stops, row);
      ScopesClaim(l.attempts, l.startedScopes, l.permits, row);
      PublicationsClaim(l.publications, l.attempts, row);
      PendingClaim(l.attempts, l.pending, row);
      OutboxOpen(l);
      OutboxGrows(l.(reservations := t.reservations, candidates := t.candidates, attempts := t.attempts, firstClaimed := true,
                     consumed := t.consumed, retryAuthorization := None), Claimed, None);
    }
  }

  /* ---- the live attempt moves ---- */

  // What a change of the live attempt's row must respect.
  predicate RowMoves(before: Attempt, row: Attempt) {
    && Live(row.status) && row.candidate == before.candidate && row.incarnation == before.incarnation && row.stopped == before.stopped
    && (before.revoked ==> row.revoked) && (row.status == CancelRequested ==> row.revoked)
  }

  lemma StopsMove(attempts: seq<Attempt>, stops: seq<StopAccepted>, row: Attempt)
    requires Stops(attempts, stops) && |attempts| > 0 && RowMoves(attempts[|attempts| - 1], row)
    ensures Stops(attempts[|attempts| - 1 := row], stops)
  {}

  lemma HistoryMoves(state: Status, cs: seq<Candidate>, attempts: seq<Attempt>, row: Attempt)
    requires History(state, cs, attempts) && |attempts| > 0 && RowMoves(attempts[|attempts| - 1], row) && Live(state)
    requires Live(cs[row.candidate].status)
    ensures History(row.status, cs[row.candidate := cs[row.candidate].(status := row.status)], attempts[|attempts| - 1 := row])
  {
    var n := |attempts| - 1;
    var cs', attempts' := cs[row.candidate := cs[row.candidate].(status := row.status)], attempts[n := row];
    forall a | 0 <= a < n ensures Settled(cs', attempts'[a]) { assert Settled(cs, attempts[a]); }
    AttemptsKept(attempts, attempts');
  }

  // Rows that keep their candidate leave every attempt lookup as it was.
  lemma AttemptsKept(before: seq<Attempt>, after: seq<Attempt>)
    requires |before| == |after| && forall a :: 0 <= a < |before| ==> before[a].candidate == after[a].candidate
    ensures forall k: nat :: AttemptOf(before, k) == AttemptOf(after, k)
  {
    forall k: nat ensures AttemptOf(before, k) == AttemptOf(after, k) { AttemptKept(before, after, k); }
  }

  lemma {:induction false} AttemptKept(before: seq<Attempt>, after: seq<Attempt>, k: nat)
    requires |before| == |after| && forall a :: 0 <= a < |before| ==> before[a].candidate == after[a].candidate
    ensures AttemptOf(before, k) == AttemptOf(after, k)
  {
    if |before| > 0 { AttemptKept(before[..|before| - 1], after[..|after| - 1], k); }
  }

  // Moving request, candidate and attempt together keeps everything but the scopes.
  lemma MoveRest(l: Ledger, row: Attempt)
    requires ForeignKeys(l) && InvRest(l) && Live(l.state) && RowMoves(l.attempts[|l.attempts| - 1], row)
    requires l.attempts[|l.attempts| - 1].scopeId.Some? ==> row.scopeId.Some?
    requires Unresolved(l.publications) ==> row.status in {Running, CancelRequested}
    ensures |l.attempts| > 0 && var m := MoveTogether(l, |l.attempts| - 1, row); ForeignKeys(m) && InvRest(m)
  {
    hide Capacity, Stops, Sending, History, Publications, PendingResults;
    var n, c := |l.attempts| - 1, row.candidate;
    var moved := l.candidates[c].(status := row.status);
    StopsMove(l.attempts, l.stops, row);
    HistoryMoves(l.state, l.candidates, l.attempts, row);
    CapacityKept(l.candidates, l.reservations, row.status);
    PublicationsMove(l.state, l.publications, l.attempts, row);
    PendingMove(l.attempts, l.pending, row);
    OutboxOpen(l);
    OutboxGrows(l.(attempts := l.attempts[n := row], candidates := l.candidates[c := moved]), row.status, None);
  }

  lemma MoveInv(l: Ledger, row: Attempt)
    requires Inv(l) && Live(l.state) && RowMoves(l.attempts[|l.attempts| - 1], row)
    requires row.scopeId == l.attempts[|l.attempts| - 1].scopeId && row.startedAt == l.attempts[|l.attempts| - 1].startedAt
    requires row.status == Claimed ==> row.scopeId.None?
    requires row.status == Running ==> row.scopeId.Some?
    requires Unresolved(l.publications) ==> row.status in {Running, CancelRequested}
    ensures Inv(MoveTogether(l, |l.attempts| - 1, row))
  {
    hide InvRest, Scopes;
    MoveRest(l, row);
    ScopesKept(l.attempts, l.startedScopes, l.permits, row);
  }

  lemma CapacityKept(cs: seq<Candidate>, rs: seq<Reservation>, status: Status)
    requires Capacity(cs, rs) && |cs| > 0 && Live(cs[|cs| - 1].status) && Live(status)
    ensures Capacity(cs[|cs| - 1 := cs[|cs| - 1].(status := status)], rs)
  {}

  lemma PendingMove(attempts: seq<Attempt>, pending: multiset<Submission>, row: Attempt)
    requires PendingResults(attempts, pending) && |attempts| > 0
    requires row.stopped == attempts[|attempts| - 1].stopped && (attempts[|attempts| - 1].scopeId.Some? ==> row.scopeId.Some?)
    ensures PendingResults(attempts[|attempts| - 1 := row], pending)
  {}

  lemma ScopesKept(attempts: seq<Attempt>, started: seq<StartedScope>, permits: seq<StartPermit>, row: Attempt)
    requires Scopes(attempts, started, permits) && |attempts| > 0
    requires var last := attempts[|attempts| - 1]; row.scopeId == last.scopeId && row.startedAt == last.startedAt && row.incarnation == last.incarnation
    requires row.status == Claimed ==> row.scopeId.None?
    requires row.status == Running ==> row.scopeId.Some?
    ensures Scopes(attempts[|attempts| - 1 := row], started, permits)
  {}

  lemma PublicationsMove(state: Status, publications: seq<Publication>, attempts: seq<Attempt>, row: Attempt)
    requires Publications(state, publications, attempts) && |attempts| > 0 && row.stopped == attempts[|attempts| - 1].stopped
    requires Unresolved(publications) ==> row.status in {Running, CancelRequested}
    ensures Publications(row.status, publications, attempts[|attempts| - 1 := row])
  {}

  lemma ScopesStart(attempts: seq<Attempt>, started: seq<StartedScope>, permits: seq<StartPermit>, row: Attempt, scope: Scope)
    requires Scopes(attempts, started, permits) && |attempts| > 0 && attempts[|attempts| - 1].status == Claimed
    requires row.scopeId == Some(scope.scopeId) && row.startedAt.Some? && row.status == Running && row.incarnation == attempts[|attempts| - 1].incarnation
    ensures Scopes(attempts[|attempts| - 1 := row], started + [StartedScope(|attempts| - 1, scope)], permits)
  {
    var n, started' := |attempts| - 1, started + [StartedScope(|attempts| - 1, scope)];
    assert !HasStarted(started, n);
    assert started'[|started|].attempt == n;
    forall a | 0 <= a < |attempts| && a != n ensures HasStarted(started', a) <==> HasStarted(started, a) {
      if HasStarted(started, a) { var i :| 0 <= i < |started| && started[i].attempt == a; assert started'[i].attempt == a; }
    }
    forall p | 0 <= p < |permits| ensures PermitRecorded(started', permits[p]) {
      assert PermitRecorded(started, permits[p]);
      var i :| 0 <= i < |started| && started[i] == StartedScope(permits[p].attempt, permits[p].scope);
      assert started'[i] == started[i];
    }
  }

  // An attempt with execution rights is the live, newest one.
  lemma ActiveIsLast(l: Ledger, a: nat, i: Incarnation)
    requires Inv(l) && a < |l.attempts| && (Active(l, a, i) || (Current(l, a) && !Closed(l.candidates[l.attempts[a].candidate])))
    ensures a + 1 == |l.attempts| && Live(l.state) && l.attempts[a].status == l.state && l.candidates[l.attempts[a].candidate].status == l.state
  {
    hide Stops, Scopes, Sending, Results, Outbox, Retries, PendingResults, Publications;
    assert Settled(l.candidates, l.attempts[a]) || (Live(l.state) && a + 1 == |l.attempts|);
  }

  lemma StartInv(l: Ledger, a: nat, i: Incarnation, scope: Scope, authorized: bool, now: int, maxDuration: int)
    requires Inv(l)
    ensures Inv(Start(l, a, i, scope, authorized, now, maxDuration).rows)
  {
    hide InvRest, Scopes;
    var t := Start(l, a, i, scope, authorized, now, maxDuration);
    if t.answer.Permit? {
      ActiveIsLast(l, a, i);
      var p := StartPermit(a, l.attempts[a].incarnation, scope);
      if l.attempts[a].status == Claimed { StartClaimed(l, a, scope, now); }
      else { PermitRest(l, p); }
    }
  }

  lemma StartClaimed(l: Ledger, a: nat, scope: Scope, now: int)
    requires Inv(l) && l.state == Claimed && a + 1 == |l.attempts| && l.attempts[a].status == Claimed && !l.attempts[a].revoked
    ensures var row := l.attempts[a].(status := Running, scopeId := Some(scope.scopeId), startedAt := Some(now), heartbeatAt := now);
            var begun := l.(startedScopes := l.startedScopes + [StartedScope(a, scope)]);
            var m := MoveTogether(begun, a, row);
            Inv(m.(permits := m.permits + [StartPermit(a, row.incarnation, scope)]))
  {
    hide Scopes, Capacity, LockStep, Stops, Sending, Results, Outbox, Retries, PendingResults, Publications;
    var row := l.attempts[a].(status := Running, scopeId := Some(scope.scopeId), startedAt := Some(now), heartbeatAt := now);
    var begun := l.(startedScopes := l.startedScopes + [StartedScope(a, scope)]);
    RowFacts(l, a);
    UnclaimedPublications(l);
    MoveRest(begun, row);
    ScopesStart(l.attempts, l.startedScopes, l.permits, row, scope);
    assert PermitRecorded(begun.startedScopes, StartPermit(a, row.incarnation, scope)) by {
      assert begun.startedScopes[|l.startedScopes|] == StartedScope(a, scope);
    }
    PermitRest(MoveTogether(begun, a, row), StartPermit(a, row.incarnation, scope));
  }

  lemma PermitRest(l: Ledger, p: StartPermit)
    requires Inv(l) && PermitRecorded(l.startedScopes, p)
    requires p.attempt < |l.attempts| && p.incarnation == l.attempts[p.attempt].incarnation
    ensures Inv(l.(permits := l.permits + [p]))
  {
    PermitIssued(l.attempts, l.startedScopes, l.permits, p);
  }

  // What every attempt row satisfies by itself.
  lemma RowFacts(l: Ledger, a: nat)
    requires Inv(l) && a < |l.attempts|
    ensures var row := l.attempts[a];
            && (row.stopped ==> row.revoked) && (row.stopped <==> HasStop(l.stops, a)) && (row.status == CancelRequested ==> row.revoked)
            && (row.status == Claimed ==> row.scopeId.None?) && (row.status == Running ==> row.scopeId.Some?)
            && (row.scopeId.Some? <==> HasStarted(l.startedScopes, a)) && (row.scopeId.Some? <==> row.startedAt.Some?)
  {}

  lemma ResolvedAnywhere(state: Status, next: Status, publications: seq<Publication>, attempts: seq<Attempt>)
    requires Publications(state, publications, attempts) && !Unresolved(publications)
    ensures Publications(next, publications, attempts)
  {}

  lemma UnclaimedPublications(l: Ledger)
    requires Publications(l.state, l.publications, l.attempts) && l.state !in {Running, CancelRequested}
    ensures !Unresolved(l.publications)
  {}

  lemma PermitIssued(attempts: seq<Attempt>, started: seq<StartedScope>, permits: seq<StartPermit>, p: StartPermit)
    requires Scopes(attempts, started, permits) && PermitRecorded(started, p)
    requires p.attempt < |attempts| && p.incarnation == attempts[p.attempt].incarnation
    ensures Scopes(attempts, started, permits + [p])
  {}

  lemma LeaseExpiredInv(l: Ledger, a: nat)
    requires Inv(l) && Executing(l.state) && a + 1 == |l.attempts| && !l.attempts[a].stopped
    ensures Inv(LeaseExpired(l, a)) && LeaseExpired(l, a).state == Uncertain && |LeaseExpired(l, a).attempts| == |l.attempts|
    ensures LeaseExpired(l, a).attempts[a].status == Uncertain && LeaseExpired(l, a).attempts[a].revoked == l.attempts[a].revoked
  {
    hide InvRest, Scopes;
    UnstoppedPublications(l);
    RowFacts(l, a);
    CurrentRow(l);
    MoveInv(l, l.attempts[a].(status := Uncertain));
  }

  // An unresolved publication belongs to a stopped attempt.
  lemma UnstoppedPublications(l: Ledger)
    requires Inv(l) && |l.attempts| > 0 && !l.attempts[|l.attempts| - 1].stopped
    ensures !Unresolved(l.publications)
  {
    hide Scopes, Stops, Sending, Results, Outbox, Retries, PendingResults, Capacity, LockStep, History;
  }

  lemma CurrentRow(l: Ledger)
    requires Inv(l) && Live(l.state)
    ensures |l.attempts| > 0 && l.attempts[|l.attempts| - 1].status == l.state && l.attempts[|l.attempts| - 1].candidate + 1 == l.generation
    ensures l.generation == |l.candidates|
  {
    hide Scopes, Stops, Sending, Results, Outbox, Retries, PendingResults, Capacity, History, Publications;
  }

  lemma CancelForStopInv(l: Ledger, a: nat)
    requires Inv(l) && Live(l.state) && a + 1 == |l.attempts|
    ensures Inv(CancelForStop(l, a))
  {
    MoveInv(l, l.attempts[a].(status := CancelRequested, revoked := true));
  }

  // A heartbeat or an accepted stop rewrites the newest attempt without moving it.
  lemma RewriteInv(l: Ledger, row: Attempt)
    requires Inv(l) && Live(l.state)
    requires var n := |l.attempts| - 1; row == l.attempts[n].(heartbeatAt := row.heartbeatAt)
    ensures Inv(SetAttempt(l, |l.attempts| - 1, row))
  {
    hide Capacity, Stops, Scopes, Sending, History, Publications, PendingResults;
    RowFacts(l, |l.attempts| - 1);
    assert History(l.state, l.candidates, l.attempts[|l.attempts| - 1 := row]) by { HistoryRewrites(l.state, l.candidates, l.attempts, row); }
    assert Stops(l.attempts[|l.attempts| - 1 := row], l.stops) by { StopsMove(l.attempts, l.stops, row); }
    ScopesKept(l.attempts, l.startedScopes, l.permits, row);
    PublicationsRewrite(l.state, l.publications, l.attempts, row);
    PendingRewrite(l.attempts, l.pending, row);
  }

  lemma HistoryRewrites(state: Status, cs: seq<Candidate>, attempts: seq<Attempt>, row: Attempt)
    requires History(state, cs, attempts) && |attempts| > 0 && Live(state) && row.candidate == attempts[|attempts| - 1].candidate
    requires row.status == CancelRequested ==> row.revoked
    ensures History(state, cs, attempts[|attempts| - 1 := row])
  {
    AttemptsKept(attempts, attempts[|attempts| - 1 := row]);
  }

  lemma PublicationsRewrite(state: Status, publications: seq<Publication>, attempts: seq<Attempt>, row: Attempt)
    requires Publications(state, publications, attempts) && |attempts| > 0 && (attempts[|attempts| - 1].stopped ==> row.stopped)
    ensures Publications(state, publications, attempts[|attempts| - 1 := row])
  {}

  lemma PendingRewrite(attempts: seq<Attempt>, pending: multiset<Submission>, row: Attempt)
    requires PendingResults(attempts, pending) && |attempts| > 0
    requires (attempts[|attempts| - 1].stopped ==> row.stopped) && row.scopeId == attempts[|attempts| - 1].scopeId
    ensures PendingResults(attempts[|attempts| - 1 := row], pending)
  {}

  lemma RenewInv(l: Ledger, a: nat, i: Incarnation, scopeId: Option<string>, authorized: bool, now: int, maxDuration: int)
    requires Inv(l)
    ensures Inv(Renew(l, a, i, scopeId, authorized, now, maxDuration).rows)
  {
    hide InvRest, Scopes;
    if Renew(l, a, i, scopeId, authorized, now, maxDuration).rows != l {
      var row := l.attempts[a];
      ActiveIsLast(l, a, i);
      RowFacts(l, a);
      var m := if row.status != Uncertain && now - row.heartbeatAt >= LEASE_MS then LeaseExpired(l, a) else l;
      if row.status != Uncertain && now - row.heartbeatAt >= LEASE_MS { LeaseExpiredInv(l, a); }
      if !authorized || (row.startedAt.Some? && now - row.startedAt.value >= maxDuration) { CancelForStopInv(m, a); }
      else { RewriteInv(m, m.attempts[a].(heartbeatAt := now)); }
    }
  }

  lemma ResumeInv(l: Ledger, a: nat, i: Incarnation, scope: Scope, authorized: bool, now: int, maxDuration: int)
    requires Inv(l)
    ensures Inv(Resume(l, a, i, scope, authorized, now, maxDuration).rows)
  {
    hide InvRest, Scopes;
    if Resume(l, a, i, scope, authorized, now, maxDuration).rows != l {
      ActiveIsLast(l, a, i);
      MoveInv(l, l.attempts[a].(status := Running, heartbeatAt := now));
    }
  }

  lemma ExpireInv(l: Ledger, a: nat, now: int, maxDuration: int)
    requires Inv(l)
    ensures Inv(Expire(l, a, now, maxDuration).rows)
  {
    hide InvRest, Scopes;
    if Expire(l, a, now, maxDuration).rows != l {
      CurrentIsLast(l, a);
      if l.attempts[a].startedAt.Some? && now - l.attempts[a].startedAt.value >= maxDuration { CancelForStopInv(l, a); }
      else { LeaseExpiredInv(l, a); }
    }
  }

  lemma CurrentIsLast(l: Ledger, a: nat)
    requires Inv(l) && a < |l.attempts| && Current(l, a) && Live(l.state)
    ensures a + 1 == |l.attempts| && l.attempts[a].status == l.state
    ensures l.attempts[a].stopped <==> HasStop(l.stops, a)
  {
    hide Scopes, Sending, Results, Outbox, Retries, PendingResults, Publications;
    assert Settled(l.candidates, l.attempts[a]) || (Live(l.state) && a + 1 == |l.attempts|);
  }

  /* ---- stops ---- */

  lemma AcceptStopInv(l: Ledger, a: nat, kind: StopKind, digest: string)
    requires Inv(l) && Live(l.state) && a + 1 == |l.attempts| && !l.attempts[a].stopped
    ensures Inv(AcceptStop(l, a, kind, digest)) && AcceptStop(l, a, kind, digest).attempts[a].stopped
  {
    hide Capacity, Stops, Scopes, Sending, History, Publications, PendingResults;
    var row := l.attempts[a].(stopped := true, revoked := true);
    RowFacts(l, a);
    HistoryRewrites(l.state, l.candidates, l.attempts, row);
    StopsAccept(l.attempts, l.stops, StopAccepted(a, kind, digest));
    ScopesKept(l.attempts, l.startedScopes, l.permits, row);
    PublicationsRewrite(l.state, l.publications, l.attempts, row);
    PendingRewrite(l.attempts, l.pending, row);
  }

  lemma StopsAccept(attempts: seq<Attempt>, stops: seq<StopAccepted>, e: StopAccepted)
    requires Stops(attempts, stops) && e.attempt < |attempts| && !attempts[e.attempt].stopped
    ensures Stops(attempts[e.attempt := attempts[e.attempt].(stopped := true, revoked := true)], stops + [e])
  {
    var stops' := stops + [e];
    assert stops'[|stops|].attempt == e.attempt;
    forall a | 0 <= a < |attempts| && a != e.attempt ensures HasStop(stops', a) <==> HasStop(stops, a) {
      if HasStop(stops, a) { var i :| 0 <= i < |stops| && stops[i].attempt == a; assert stops'[i].attempt == a; }
    }
  }

  // Recording a stop keeps the invariant, and an attempt outside a live request was stopped before.
  lemma RecordStopInv(l: Ledger, a: nat, kind: StopKind, digest: string)
    requires Inv(l) && a < |l.attempts|
    ensures var t := RecordStop(l, a, kind, digest);
            Inv(t.rows) && (!t.answer.Refused? ==> t.rows.attempts[a].stopped) && t.rows.state == l.state
            && t.rows.results == l.results && t.rows.publications == l.publications
            && t.rows.generation == l.generation && t.rows.attempts[a].candidate == l.attempts[a].candidate
  {
    hide InvRest, Scopes;
    RowFacts(l, a);
    if FindStop(l.stops, a).None? {
      assert !HasStop(l.stops, a);
      UnsettledIsLast(l, a);
      AcceptStopInv(l, a, kind, digest);
    }
  }

  lemma UnsettledIsLast(l: Ledger, a: nat)
    requires Inv(l) && a < |l.attempts| && !(Terminal(l.attempts[a].status) && l.attempts[a].stopped)
    ensures Live(l.state) && a + 1 == |l.attempts| && l.attempts[a].status == l.state && Current(l, a)
  {
    hide Scopes, Sending, Results, Outbox, Retries, PendingResults, Publications, Capacity, Stops;
    assert !Settled(l.candidates, l.attempts[a]);
  }

  /* ---- results ---- */

  lemma ResultsEnd(l: Ledger, a: nat, report: Report, submitted: Report)
    requires Inv(l) && Live(l.state) && a + 1 == |l.attempts| && Terminal(report.outcome) && (report.outcome == Succeeded ==> l.attempts[a].scopeId.Some?)
    ensures l.resultId == None && l.results == [] && l.accepted == [] && l.version == |l.outbox| > 0 && l.outbox[0].state == Waiting
    ensures var attempts := l.attempts[a := l.attempts[a].(status := report.outcome, revoked := true)];
            && Results(report.outcome, Some(0), [Result(Some(a), report)], [ResultAccepted(a, 0, submitted)], attempts)
            && Retries(report.outcome, l.generation, l.firstClaimed, l.retryAuthorization, |attempts|, l.authorizations, l.consumed)
    ensures forall cs: seq<Candidate>, attempts: seq<Attempt> :: (forall k :: 0 <= k < |cs| ==> Closed(cs[k])) ==> LockStep(report.outcome, cs, attempts)
  {
    hide Capacity, Stops, Scopes, Sending, History, Publications, PendingResults;
  }

  lemma FinishInv(l: Ledger, a: nat, report: Report, submitted: Report)
    requires Inv(l) && Live(l.state) && a + 1 == |l.attempts| && l.attempts[a].stopped && !Unresolved(l.publications)
    requires Terminal(report.outcome) && (report.outcome == Succeeded ==> l.attempts[a].scopeId.Some?)
    ensures var t := FinishResult(l, a, report, submitted);
            Inv(t.rows) && t.answer == Receipt(true, 0, report)
            && t.rows.results == [Result(Some(a), report)] && t.rows.accepted == [ResultAccepted(a, 0, submitted)] && t.rows.state == report.outcome
  {
    hide Capacity, Stops, Scopes, Sending, History, Publications, PendingResults, Outbox, LockStep, Retries, Results;
    ResultsEnd(l, a, report, submitted);
    EndedParts(l, a, report.outcome, report.outcome);
    OutboxOpen(l);
    OutboxGrows(l.(results := [Result(Some(a), report)]), report.outcome, Some(0));
    assert FinishResult(l, a, report, submitted).rows.attempts == l.attempts[a := l.attempts[a].(status := report.outcome, revoked := true)];
    assert l.accepted + [ResultAccepted(a, 0, submitted)] == [ResultAccepted(a, 0, submitted)];
  }

  lemma LiveCandidate(l: Ledger)
    requires Inv(l) && Live(l.state)
    ensures |l.candidates| > 0 && l.candidates[|l.candidates| - 1].claimed
  {}

  lemma StopsTerminal(attempts: seq<Attempt>, stops: seq<StopAccepted>, row: Attempt)
    requires Stops(attempts, stops) && |attempts| > 0 && row.stopped == attempts[|attempts| - 1].stopped && row.revoked
    ensures Stops(attempts[|attempts| - 1 := row], stops)
  {}

  lemma HistoryFinishes(state: Status, next: Status, cs: seq<Candidate>, attempts: seq<Attempt>, row: Attempt)
    requires History(state, cs, attempts) && |attempts| > 0 && !Live(next)
    requires row.candidate == attempts[|attempts| - 1].candidate && Terminal(row.status) && row.stopped && row.revoked
    ensures History(next, cs[row.candidate := cs[row.candidate].(status := Finished)], attempts[|attempts| - 1 := row])
  {
    var n := |attempts| - 1;
    var cs', attempts' := cs[row.candidate := cs[row.candidate].(status := Finished)], attempts[n := row];
    forall a | 0 <= a < |attempts| ensures Settled(cs', attempts'[a]) {
      if a < n { assert Settled(cs, attempts[a]); }
    }
    AttemptsKept(attempts, attempts');
  }

  lemma FinishStoppedInv(l: Ledger, a: nat, answer: Answer)
    requires Inv(l) && a < |l.attempts| && l.attempts[a].stopped && !answer.Refused? && Current(l, a)
    ensures Inv(FinishStoppedCancellation(l, a, answer).rows) && FinishStoppedCancellation(l, a, answer).answer == answer
  {
    hide InvRest, Scopes;
    if l.state == CancelRequested && !Unresolved(l.publications) && |l.results| == 0 {
      CurrentIsLast(l, a);
      FinishInv(l, a, StoppedCancellation, StoppedCancellation);
    }
  }

  /* ---- stop submissions ---- */

  // A stop of an older generation's attempt reaches a request whose newer attempt is being cancelled.
  predicate StaleStop(l: Ledger, a: nat)
    requires a < |l.attempts|
  {
    !Current(l, a) && l.state == CancelRequested && !Unresolved(l.publications)
  }

  lemma ScopedStopInv(l: Ledger, a: nat, o: Observation)
    requires Inv(l) && a < |l.attempts|
    ensures var t := AcceptScopedStop(l, a, o);
            Inv(t.rows) && t.rows.state == l.state && t.rows.results == l.results && t.rows.publications == l.publications
            && t.rows.generation == l.generation && t.rows.attempts[a].candidate == l.attempts[a].candidate
            && (!t.answer.Refused? ==> t.rows.attempts[a].stopped)
  {
    hide InvRest, Scopes;
    RecordStopInv(l, a, ContainerStopped, o.digest);
  }

  // An accepted stop keeps the invariant exactly when it is not stale: finishing the cancellation on behalf of an
  // older attempt ends the request while its newest candidate still holds its slot.
  lemma SubmitStopInv(l: Ledger, a: nat, authorized: bool, o: Observation)
    requires Inv(l)
    ensures var t := SubmitStop(l, a, authorized, o);
            if t.answer.Refused? then t.rows == l
            else a < |l.attempts| && (Inv(t.rows) <==> !StaleStop(l, a))
  {
    hide Scopes, Stops, Sending, Results, Outbox, Retries, PendingResults, Publications, History;
    if a < |l.attempts| && authorized {
      ScopedStopInv(l, a, o);
      var stop := AcceptScopedStop(l, a, o);
      if !stop.answer.Refused? {
        NoResults(l);
        if StaleStop(l, a) {
          StaleStopEnds(stop.rows, a, stop.answer);
        } else if Current(l, a) {
          FinishStoppedInv(stop.rows, a, stop.answer);
        }
      }
    }
  }

  lemma NoResults(l: Ledger)
    requires Inv(l)
    ensures |l.results| == 0 <==> !Terminal(l.state)
  {}

  lemma StaleStopEnds(l: Ledger, a: nat, answer: Answer)
    requires Inv(l) && a < |l.attempts| && StaleStop(l, a) && l.attempts[a].stopped && !answer.Refused?
    ensures var t := FinishStoppedCancellation(l, a, answer);
            && t.answer == answer && !Inv(t.rows)
            && t.rows.state == Cancelled && 0 < l.generation <= |t.rows.reservations| && !t.rows.reservations[l.generation - 1].released
            && |t.rows.attempts| == |l.attempts| && t.rows.attempts[|l.attempts| - 1] == l.attempts[|l.attempts| - 1]
            && l.attempts[|l.attempts| - 1].status == CancelRequested
  {
    hide Scopes, Stops, Sending, Outbox, Retries, PendingResults, Publications, History;
    NoResults(l);
    var t := FinishStoppedCancellation(l, a, answer);
    assert t.rows.candidates[l.generation - 1] == l.candidates[l.generation - 1];
    assert !Closed(t.rows.candidates[l.generation - 1]);
  }

  lemma ClaimBoundStopInv(l: Ledger, a: nat, authorized: bool, reason: string, digest: string, scopedEvidence: bool, timely: bool)
    requires Inv(l)
    ensures Inv(SubmitClaimBoundStop(l, a, authorized, reason, digest, scopedEvidence, timely).rows)
  {
    hide InvRest, Scopes, CloseUnstarted;
    if a < |l.attempts| && UnstartedSignature(l, a) { CloseUnstartedInv(l, a, ClaimBound, digest, ClaimBoundFailure(reason), StopReceipt(|l.stops|)); }
  }

  lemma OrphanInv(l: Ledger, a: nat, i: Incarnation)
    requires Inv(l)
    ensures Inv(CloseOrphan(l, a, i).rows)
  {
    hide InvRest, Scopes, CloseUnstarted;
    if a < |l.attempts| && UnstartedSignature(l, a) { CloseUnstartedInv(l, a, SignedOffUnstarted, "", SignedOffBeforeStart, Done); }
  }

  // Closing an unstarted attempt always succeeds, and with it the request has ended.
  lemma CloseUnstartedInv(l: Ledger, a: nat, kind: StopKind, digest: string, failure: Report, receipt: Answer)
    requires Inv(l) && a < |l.attempts| && UnstartedSignature(l, a) && failure.outcome == Failed && !receipt.Refused?
    ensures var t := CloseUnstarted(l, a, kind, digest, failure, receipt);
            && Inv(t.rows) && t.answer == receipt
            && (l.state != CancelRequested ==> t.rows.state == Failed && t.rows.results == [Result(Some(a), failure)]
                                               && t.rows.accepted == [ResultAccepted(a, 0, failure)])
  {
    hide InvRest, Scopes;
    CurrentIsLast(l, a);
    AcceptStopInv(l, a, kind, digest);
    var stopped := AcceptStop(l, a, kind, digest);
    FinishStoppedInv(stopped, a, receipt);
    FinishInv(stopped, a, failure, failure);
  }

  /* ---- cancellation and recovery ---- */

  lemma CancelInv(l: Ledger, key: string, expectedVersion: nat, authorized: bool)
    requires Inv(l)
    ensures Inv(Cancel(l, key, expectedVersion, authorized).rows)
  {
    hide InvRest, Scopes;
    if !Terminal(l.state) {
      CancelOpenInv(l);
      ActionsRest(CancelOpen(l).rows, CancelOpen(l).rows.cancelActions[key := expectedVersion], l.recoveryActions);
    }
    ActionsRest(l, l.cancelActions[key := expectedVersion], l.recoveryActions);
  }

  lemma ActionsRest(l: Ledger, cancels: map<string, nat>, recoveries: map<string, string>)
    requires Inv(l)
    ensures Inv(l.(cancelActions := cancels)) && Inv(l.(recoveryActions := recoveries))
  {}

  lemma CancelOpenInv(l: Ledger)
    requires Inv(l) && !Terminal(l.state)
    ensures Inv(CancelOpen(l).rows)
  {
    hide InvRest, Scopes;
    OpenStates(l);
    if l.state in {Waiting, Reserved} { CancelUnclaimedInv(l); } else { CancelLiveInv(l); }
  }

  lemma OpenStates(l: Ledger)
    requires Inv(l)
    ensures l.state in {Waiting, Reserved} || Live(l.state) || Terminal(l.state)
  {
    hide Scopes, Stops, Sending, Outbox, Retries, PendingResults, Publications, Capacity, Results, History;
  }

  lemma CancelUnclaimedInv(l: Ledger)
    requires Inv(l) && l.state in {Waiting, Reserved}
    ensures Inv(CancelOpen(l).rows)
  {
    hide InvRest, Scopes, RetryAuthority;
    NoResults(l);
    UnclaimedHasNoAttempt(l);
    RetireUnstarted(l, Result(None, CancelledByRequester));
    assert l.results + [Result(None, CancelledByRequester)] == [Result(None, CancelledByRequester)];
    assert RetireOpen(l).results == l.results;
  }

  lemma CancelLiveInv(l: Ledger)
    requires Inv(l) && Live(l.state)
    ensures Inv(CancelOpen(l).rows)
  {
    hide InvRest, Scopes, CancelForStop, FinishResult;
    var a := |l.attempts| - 1;
    CurrentRow(l);
    LiveCandidateOpen(l);
    LastAttempt(l.attempts, l.generation - 1);
    CancelForStopInv(l, a);
    var m := if l.state == CancelRequested then l else CancelForStop(l, a);
    CancelledForStop(l, a);
    if m.attempts[a].stopped && !Unresolved(m.publications) { FinishInv(m, a, CancelledByRequester, CancelledByRequester); }
  }

  lemma CancelledForStop(l: Ledger, a: nat)
    requires ForeignKeys(l) && a < |l.attempts|
    ensures CancelForStop(l, a).state == CancelRequested && |CancelForStop(l, a).attempts| == |l.attempts|
  {}

  lemma LastAttempt(attempts: seq<Attempt>, k: nat)
    requires |attempts| > 0 && attempts[|attempts| - 1].candidate == k
    ensures AttemptOf(attempts, k) == Some(|attempts| - 1)
  {}

  lemma LiveCandidateOpen(l: Ledger)
    requires Inv(l) && Live(l.state)
    ensures OpenCandidate(l) == Some(l.generation - 1)
  {
    hide Scopes, Stops, Sending, Results, Outbox, Retries, PendingResults, Capacity, History, Publications;
  }

  lemma UnclaimedHasNoAttempt(l: Ledger)
    requires Inv(l) && l.state in {Waiting, Reserved}
    ensures var c := OpenCandidate(l); c.Some? ==> !l.candidates[c.value].claimed && AttemptOf(l.attempts, c.value).None?
  {
    hide Scopes, Stops, Sending, Outbox, Retries, PendingResults, Publications, Results;
    var c := OpenCandidate(l);
    assert forall a :: 0 <= a < |l.attempts| ==> l.candidates[l.attempts[a].candidate].claimed;
  }

  lemma RecoverInv(l: Ledger, a: nat, key: string, action: string, expectedVersion: nat, e: RecoveryEvidence, mode: RecoveryMode,
                   authorized: bool, retryAllowed: bool)
    requires Inv(l)
    ensures Inv(Recover(l, a, key, action, expectedVersion, e, mode, authorized, retryAllowed).rows)
  {
    hide InvRest, Scopes, AcceptRecoveryStop, EndRecovery;
    if Recover(l, a, key, action, expectedVersion, e, mode, authorized, retryAllowed).rows != l {
      CurrentIsLast(l, a);
      RecoveryStopInv(l, a, e);
      var m := AcceptRecoveryStop(l, a, e).rows;
      EndRecoveryInv(m, a, mode, retryAllowed);
      var done := EndRecovery(m, a, mode, retryAllowed).rows;
      ActionsRest(done, done.cancelActions, done.recoveryActions[key := action]);
    }
  }

  lemma EndRecoveryInv(l: Ledger, a: nat, mode: RecoveryMode, allowed: bool)
    requires Inv(l) && a < |l.attempts| && Current(l, a) && Live(l.state) && l.attempts[a].stopped && !Unresolved(l.publications)
    ensures Inv(EndRecovery(l, a, mode, allowed).rows)
  {
    hide Inv, FinishResult, AuthorizeRetry, Unresolved;
    CurrentIsLast(l, a);
    if mode == RetrySameContract { AuthorizeRetryInv(l, a, allowed); } else { ClosedByRecovery(l, a, mode); }
  }

  lemma ClosedByRecovery(l: Ledger, a: nat, mode: RecoveryMode)
    requires Inv(l) && Live(l.state) && a + 1 == |l.attempts| && l.attempts[a].stopped && !Unresolved(l.publications)
    ensures Inv(FinishResult(l, a, RecoveryReport(mode), RecoveryReport(mode)).rows)
  {
    hide Inv, FinishResult, Unresolved;
    FinishInv(l, a, RecoveryReport(mode), RecoveryReport(mode));
  }

  lemma RecoveryStopInv(l: Ledger, a: nat, e: RecoveryEvidence)
    requires Inv(l) && a < |l.attempts|
    ensures var t := AcceptRecoveryStop(l, a, e);
            Inv(t.rows) && t.rows.state == l.state && t.rows.results == l.results && t.rows.publications == l.publications
            && t.rows.generation == l.generation && t.rows.attempts[a].candidate == l.attempts[a].candidate
            && (!t.answer.Refused? ==> t.rows.attempts[a].stopped)
  {
    hide InvRest, Scopes;
    match e
    case FromRuntime(o) => ScopedStopInv(l, a, o);
    case Attested(rebooted, digest, valid) => RecordStopInv(l, a, AttestedKind(rebooted), digest);
  }

  lemma AuthorizeRetryInv(l: Ledger, a: nat, allowed: bool)
    requires Inv(l) && Live(l.state) && a + 1 == |l.attempts| && l.attempts[a].stopped
    ensures Inv(AuthorizeRetry(l, a, allowed).rows)
  {
    hide Capacity, Stops, Scopes, Sending, History, Publications, PendingResults;
    if l.state == Uncertain && allowed && !Unresolved(l.publications) {
      EndedParts(l, a, Failed, Waiting);
      OutboxOpen(l);
      var ended := Terminalize(l, a, Failed).value;
      OutboxGrows(ended.(authorizations := l.authorizations + [RetryAuthorized(a, l.generation)], retryAuthorization := Some(|l.authorizations|)), Waiting, None);
    }
  }

  // What ending the live attempt does to the parts that speak of attempts and candidates.
  lemma EndedParts(l: Ledger, a: nat, outcome: Status, next: Status)
    requires Inv(l) && Live(l.state) && a + 1 == |l.attempts| && l.attempts[a].stopped && !Unresolved(l.publications)
    requires Terminal(outcome) && !Live(next)
    ensures var row, k := l.attempts[a].(status := outcome, revoked := true), l.attempts[a].candidate;
            var attempts, cs := l.attempts[a := row], l.candidates[k := l.candidates[k].(status := Finished)];
            && Capacity(cs, l.reservations[k := l.reservations[k].(released := true)]) && (forall j :: 0 <= j < |cs| ==> Closed(cs[j]))
            && History(next, cs, attempts) && Stops(attempts, l.stops) && Scopes(attempts, l.startedScopes, l.permits)
            && Publications(next, l.publications, attempts) && PendingResults(attempts, l.pending)
  {
    hide InvRest, Capacity, Stops, Scopes, Sending, History, Publications, PendingResults;
    var row := l.attempts[a].(status := outcome, revoked := true);
    RowFacts(l, a);
    CurrentRow(l);
    LiveCandidate(l);
    Parts(l);
    CandidateCloses(l.candidates, l.reservations, l.attempts[a].candidate, Finished);
    HistoryFinishes(l.state, next, l.candidates, l.attempts, row);
    StopsTerminal(l.attempts, l.stops, row);
    ScopesKept(l.attempts, l.startedScopes, l.permits, row);
    PublicationsRewrite(l.state, l.publications, l.attempts, row);
    ResolvedAnywhere(l.state, next, l.publications, l.attempts[a := row]);
    PendingRewrite(l.attempts, l.pending, row);
  }

  lemma Parts(l: Ledger)
    requires Inv(l)
    ensures Capacity(l.candidates, l.reservations) && History(l.state, l.candidates, l.attempts) && Stops(l.attempts, l.stops)
    ensures Scopes(l.attempts, l.startedScopes, l.permits) && Publications(l.state, l.publications, l.attempts) && PendingResults(l.attempts, l.pending)
  {
    hide Capacity, Stops, Scopes, Sending, History, Publications, PendingResults;
  }

  /* ---- result acceptance ---- */

  lemma BeginResultInv(l: Ledger, a: nat, submitted: Report, authorized: bool, intact: bool, failure: Option<string>)
    requires Inv(l)
    ensures Inv(BeginResult(l, a, submitted, authorized, intact, failure).rows)
  {}

  lemma FailPendingInv(l: Ledger, s: Submission, summary: string)
    requires Inv(l)
    ensures Inv(FailPending(l, s, summary).rows)
  {}

  lemma EndResultInv(l: Ledger, s: Submission, authorized: bool, publishable: bool)
    requires Inv(l)
    ensures Inv(EndResult(l, s, authorized, publishable).rows)
  {
    hide InvRest, Scopes;
    if EndResult(l, s, authorized, publishable).rows != l {
      if |l.results| > 0 {
        LateRest(l, s);
      } else {
        PendingFacts(l, s);
        CurrentIsLast(l, s.attempt);
        LateRest(l, s);
        if l.state == CancelRequested {
          FinishInv(l.(late := l.late + [LateResult(s.attempt, s.submitted)]), s.attempt, s.report.(outcome := Cancelled), s.submitted);
        } else {
          var report := if s.report.outcome == Succeeded && !publishable then s.report.(outcome := Failed, summary := "authorization_unavailable") else s.report;
          FinishInv(l, s.attempt, report, s.submitted);
        }
      }
    }
  }

  lemma LateRest(l: Ledger, s: Submission)
    requires Inv(l)
    ensures Inv(l.(late := l.late + [LateResult(s.attempt, s.submitted)]))
  {}

  lemma PendingFacts(l: Ledger, s: Submission)
    requires Inv(l) && s in l.pending
    ensures s.attempt < |l.attempts| && l.attempts[s.attempt].stopped && Terminal(s.report.outcome)
    ensures s.report.outcome == Succeeded ==> l.attempts[s.attempt].scopeId.Some?
  {}

  /* ---- publication ---- */

  lemma StoreOutcomeInv(l: Ledger, op: nat, outcome: PublicationState)
    requires Inv(l) && op < |l.publications| && outcome in {Confirmed, PublicationFailed, Unknown} && l.publisher.None?
    requires l.publications[op].state == Prepared || outcome != PublicationFailed
    requires l.publications[op].state == Prepared ==> outcome == PublicationFailed
    ensures Inv(StoreOutcome(l, op, outcome))
  {
    hide Capacity, LockStep, History, Stops, Scopes, Sending, Results, Outbox, Publications, Retries, PendingResults;
    if !Resolved(l.publications[op]) {
      PublicationsStore(l.state, l.publications, l.attempts, op, outcome);
      SendingSettles(l.publications, l.portCalls, l.resolutions, op, outcome);
    }
  }

  // An operation that was never called may fail; any other may only be confirmed or stay unknown.
  lemma SendingSettles(ps: seq<Publication>, calls: seq<PortCall>, resolutions: map<string, Resolution>, op: nat, outcome: PublicationState)
    requires Sending(ps, calls, resolutions, None) && op < |ps| && !Resolved(ps[op]) && outcome != Prepared
    requires outcome == PublicationFailed ==> ps[op].state == Prepared
    ensures Sending(ps[op := ps[op].(state := outcome)], calls, resolutions, None)
  {}

  lemma ReconcileInv(l: Ledger, op: nat, seen: bool)
    requires Inv(l)
    ensures Inv(Reconcile(l, op, seen).rows)
  {
    hide InvRest, Scopes;
    if l.publisher.None? && op < |l.publications| {
      StoreOutcomeInv(l, op, if l.publications[op].state == Prepared then PublicationFailed else if seen then Confirmed else Unknown);
    }
  }

  lemma PublicationPrepared(l: Ledger, p: Publication)
    requires Inv(l) && p.state == Prepared && p.attempt < |l.attempts| && l.publisher.None?
    requires l.state == Running && p.attempt + 1 == |l.attempts| && l.attempts[p.attempt].stopped && !Unresolved(l.publications)
    ensures Inv(l.(publications := l.publications + [p], publisher := Some(ToSend(|l.publications|))))
  {
    hide Scopes, Stops, Results, Outbox, Retries, PendingResults, Capacity, LockStep, History;
  }

  lemma NewestUnresolved(l: Ledger)
    requires Inv(l)
    ensures |l.publications| == 0 || Resolved(l.publications[|l.publications| - 1]) ==> !Unresolved(l.publications)
  {
    hide Scopes, Stops, Results, Outbox, Retries, PendingResults, Capacity, LockStep, History, Sending;
  }

  lemma BeginPublishInv(l: Ledger, a: nat, artifact: string, head: string, authorized: bool, publishable: bool, seen: bool)
    requires Inv(l)
    ensures Inv(BeginPublish(l, a, artifact, head, authorized, publishable, seen).rows)
  {
    hide InvRest, Scopes, Reconcile;
    var n := |l.publications|;
    NewestUnresolved(l);
    if n > 0 { ReconcileInv(l, n - 1, seen); }
    if a < |l.attempts| && l.state == Running && Current(l, a) && l.attempts[a].stopped && l.publisher.None? && !Unresolved(l.publications) {
      CurrentIsLast(l, a);
      var expected := if n > 0 && l.publications[n - 1].state == Confirmed then Some(l.publications[n - 1].head) else None;
      PublicationPrepared(l, Publication(a, artifact, head, expected, Prepared));
    }
  }

  lemma PublicationsStore(state: Status, ps: seq<Publication>, attempts: seq<Attempt>, op: nat, next: PublicationState)
    requires Publications(state, ps, attempts) && op < |ps| && !Resolved(ps[op])
    ensures Publications(state, ps[op := ps[op].(state := next)], attempts)
  {}

  lemma SendingStores(ps: seq<Publication>, calls: seq<PortCall>, resolutions: map<string, Resolution>, publisher: Option<Publisher>)
    requires Sending(ps, calls, resolutions, publisher) && publisher.Some?
    ensures match publisher.value
            case ToSend(op) =>
              && Sending(ps[op := ps[op].(state := PublicationFailed)], calls, resolutions, None)
              && Sending(ps[op := ps[op].(state := Sent)], calls, resolutions, Some(ToCall(op)))
            case ToCall(op) => true
            case ToReturn(op) => true
            case ToStore(op, status) => Sending(ps[op := ps[op].(state := Stored(status))], calls, resolutions, None)
  {
    match publisher.value
    case ToSend(op) => assert !Called(calls, op);
    case ToCall(op) =>
    case ToReturn(op) =>
    case ToStore(op, status) =>
  }

  lemma OpenSendGateInv(l: Ledger, authorized: bool)
    requires Inv(l)
    ensures Inv(OpenSendGate(l, authorized).rows)
  {
    hide Capacity, LockStep, History, Stops, Scopes, Sending, Results, Outbox, Publications, Retries, PendingResults;
    if l.publisher.Some? && l.publisher.value.ToSend? {
      var op := l.publisher.value.op;
      PublisherFacts(l);
      SendingStores(l.publications, l.portCalls, l.resolutions, l.publisher);
      PublicationsStore(l.state, l.publications, l.attempts, op, PublicationFailed);
      PublicationsStore(l.state, l.publications, l.attempts, op, Sent);
    }
  }

  lemma PublisherFacts(l: Ledger)
    requires Inv(l) && l.publisher.Some?
    ensures l.publisher.value.ToSend? ==> l.publications[l.publisher.value.op].state == Prepared
    ensures !l.publisher.value.ToSend? ==> l.publications[l.publisher.value.op].state == Sent
  {}

  lemma SendingLeaves(ps: seq<Publication>, calls: seq<PortCall>, resolutions: map<string, Resolution>, op: nat)
    requires Sending(ps, calls, resolutions, Some(ToCall(op)))
    ensures Sending(ps, calls + [Left(op)], resolutions, Some(ToReturn(op)))
  {
    UnissuedStays(calls, Left(op));
  }

  lemma SendingReturns(ps: seq<Publication>, calls: seq<PortCall>, resolutions: map<string, Resolution>, op: nat, status: ReceiptStatus, issued: bool)
    requires Sending(ps, calls, resolutions, Some(ToReturn(op))) && (status == SaysFailed ==> !issued)
    ensures Sending(ps, calls + [Back(op, issued)], resolutions, Some(ToStore(op, status)))
  {
    var after := calls + [Back(op, issued)];
    UnissuedStays(calls, Back(op, issued));
    assert after[|calls|] == Back(op, issued);
  }

  lemma UnissuedStays(calls: seq<PortCall>, call: PortCall)
    ensures forall op :: Unissued(calls, op) ==> Unissued(calls + [call], op)
  {
    forall op | Unissued(calls, op) ensures Unissued(calls + [call], op) {
      var i :| 0 <= i < |calls| && calls[i] == Back(op, false);
      assert (calls + [call])[i] == Back(op, false);
    }
  }

  lemma CallPortInv(l: Ledger)
    requires Inv(l)
    ensures Inv(CallPort(l).rows)
  {
    hide Scopes, Stops, Results, Outbox, Retries, PendingResults, Capacity, LockStep, History, Publications, Sending;
    if l.publisher.Some? && l.publisher.value.ToCall? { SendingLeaves(l.publications, l.portCalls, l.resolutions, l.publisher.value.op); }
  }

  lemma ReturnPortInv(l: Ledger, status: ReceiptStatus, issued: bool)
    requires Inv(l)
    ensures Inv(ReturnPort(l, status, issued).rows)
  {
    hide Scopes, Stops, Results, Outbox, Retries, PendingResults, Capacity, LockStep, History, Publications, Sending;
    if l.publisher.Some? && l.publisher.value.ToReturn? && !(status == SaysFailed && issued) {
      SendingReturns(l.publications, l.portCalls, l.resolutions, l.publisher.value.op, status, issued);
    }
  }

  lemma StoreReceiptInv(l: Ledger)
    requires Inv(l)
    ensures Inv(StoreReceipt(l).rows)
  {
    hide Capacity, LockStep, History, Stops, Scopes, Sending, Results, Outbox, Publications, Retries, PendingResults;
    if l.publisher.Some? && l.publisher.value.ToStore? {
      PublisherFacts(l);
      SendingStores(l.publications, l.portCalls, l.resolutions, l.publisher);
      PublicationsStore(l.state, l.publications, l.attempts, l.publisher.value.op, Stored(l.publisher.value.status));
    }
  }

  lemma CrashInv(l: Ledger)
    requires Inv(l)
    ensures Inv(Crash(l).rows)
  {}

  lemma ResolveInv(l: Ledger, op: nat, key: string, authorized: bool, attestation: Attestation)
    requires Inv(l)
    ensures Inv(Resolve(l, op, key, authorized, attestation).rows)
  {
    hide Capacity, LockStep, History, Stops, Scopes, Sending, Results, Outbox, Publications, Retries, PendingResults;
    if Resolve(l, op, key, authorized, attestation).rows != l {
      PublicationsStore(l.state, l.publications, l.attempts, op, PublicationFailed);
      SendingResolves(l.publications, l.portCalls, l.resolutions, op, key, attestation.digest);
    }
  }

  lemma SendingResolves(ps: seq<Publication>, calls: seq<PortCall>, resolutions: map<string, Resolution>, op: nat, key: string, digest: string)
    requires Sending(ps, calls, resolutions, None) && op < |ps| && key !in resolutions
    ensures Sending(ps[op := ps[op].(state := PublicationFailed)], calls, resolutions[key := Resolution(op, digest)], None)
  {
    var after := resolutions[key := Resolution(op, digest)];
    assert after[key].op == op;
    forall v | ByAction(resolutions, v) ensures ByAction(after, v) {
      var k :| k in resolutions && resolutions[k].op == v;
      assert after[k].op == v;
    }
  }
}
