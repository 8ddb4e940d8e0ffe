# Verified models of the dispatch service and its neighbours

This project models, in Dafny, the parts of the repository whose correctness no single function shows: the queue-dispatch
protocol with its candidates, slot reservations, attempts, start permits, stop evidence, publications, results and outbox;
the delivery of the outbox to a second database; and the self-contained algorithms around them.

## How the dispatch protocol is modelled

All rows of one request form a `Ledger` (`dispatch_rows.dfy`). A transaction body is one atomic step under the request's row
lock, and each appears twice:

* as a rule, a function from rows to rows and an answer (`dispatch_rules.dfy`);
* as a method of the class `Rows` (`dispatch_transactions.dfy`) that changes the columns step by step, as the service does. Each
  method is proved to leave exactly what its rule says. A transaction that refuses is dropped as a whole; `RefusedWritesNothing`
  proves that the rules agree with that rollback.

The class `Service` (`dispatch_service.dfy`) holds the rows of all requests and all executor incarnations and the keys that make intake
and registration idempotent, commits one transaction per call, and runs the sweeps and the claim loop. Its state is proved equal to
`Next` of `dispatch_runs.dfy`, over which whole runs are sequences of steps in any order. Completion and publication span several
transactions; their phases are separate steps, so anything may happen between them, including the death of a publisher, also while
its call of the port is away. `dispatch_flows.dfy` puts the phases together again as the two operations they are, with the steps of
others in between, and with the git port as it runs.

`DispatchInvariants` states what holds of one request's rows (`Inv`) and proves it of every transaction but one, the stale stop
described below. `DispatchEvolution` states what no transaction undoes and `DispatchFrames` what most of them leave alone.
`DispatchSoundness` states what survives even a stale stop (`Sound`), and proves it of every transaction. `DispatchDecisions` says of
each transaction exactly when it goes through, and which statuses, rows and slots it then leaves; the invariant makes many guards of
the rules equivalent to simpler ones. `DispatchTheorems`, `DispatchOutcomes`, `DispatchLeases`, `DispatchProgress`, `DispatchSuccess`,
`DispatchStale` and `DispatchStandIn` draw the conclusions over runs.

Authority, tokens and byte checks are arguments of a step: a step is considered for either answer. Hashes stand for what they hash.
Clocks are arguments as well.

## A stop replayed for an older attempt

One claim of the protocol does not hold. When a supervisor resends the accepted stop of an attempt that was retried since,
`submitStop` (`src/dispatch/stop-evidence.ts:114-116`, and `src/dispatch/recovery.ts:78` alike) answers with the old receipt and then
finishes the request's cancellation on behalf of that attempt, without comparing generations. If the newer attempt's cancellation is
under way and no publication is unresolved, the request becomes CANCELLED while its newest attempt may still run; the
reservation of that attempt is never released, because a terminal request does not change any more.

`DispatchInvariants.SubmitStopInv` proves that an accepted stop keeps the invariant exactly when this is not the case (`StaleStop`: the
attempt is not of the current generation, the request is CANCEL_REQUESTED, no publication is unresolved).
`DispatchStale.StaleStopIsReachable` gives a run that reaches it, and `DispatchStale.StaleStopLosesTheSlot` proves that the slot is
then reserved for ever. Database guards that might refuse the final update are not part of this model.

The defect costs no more than that. `DispatchRuns.RunConsistent` holds of every run, stale stops included, and so do the theorems about
slots, capacity, permits, results, the outbox, retries and publications. Only three statements need that no stale stop has hit
the request in question (`CleanFor`, whatever happened to other requests): that its rows satisfy the whole invariant
(`DispatchRuns.RunTracks`), that request, candidate and attempt are live together (`DispatchTheorems.LiveRowsAgree`), and that the newest
attempt of a request that is not live is over (`DispatchOutcomes.NewestAttemptIsOver`).

A request that has ended with a slot still reserved (`Wedged`) stays so whatever follows, and only a stale stop leads there
(`DispatchProgress.OnlyStaleStopsWedge`).

## A publication that reached its remote halfway

A publication whose outcome is unknown has two ways out. Reconciliation looks at the remote and may confirm it, and an operator may attest
that the remote does not have it, which fails it (`src/dispatch/publication.ts:144-163`). An attestation of a remote that carries the
operation's head is refused (`src/dispatch/publication.ts:155`), because finding the head is left to reconciliation. But reconciliation
of an operation that asked for a pull request confirms it only if it finds the pull request too, and it never creates one
(`src/dispatch/publication.ts:51-67`). So when the push arrived and the creation of the pull request was lost, neither way is open. The
publication stays unknown, and an unresolved publication lets its request neither finish, be recovered nor publish anew, so its slot stays
reserved. Only someone who changes the remote can help.

`PublicationPort.PushedWithoutPull` proves that such a remote is neither confirmed nor lacking, however well everything else goes, and
`PublicationPort.Publish` that a lost creation leaves exactly that. `PublicationPort.HalfwayExactly` gives the exact condition when nothing
fails outside: a pull request was asked for, and the remote has our head without a good pull request on it, or a pull request of ours
without our head.

For the protocol a remote tells one of three things about an operation (`Tells`): it confirms it, it lacks it, or neither.
`DispatchProgress.EndableExactly` proves of every reachable state, and of every remote, that operators, attesting nothing but what the
remote shows, can end the request with its slot released, without any executor's help, if and only if it is not wedged and not `Stranded`: its newest publication SENT or UNKNOWN and the
remote telling neither. `DispatchProgress.StrandedForGood` proves that no steps of anyone end a stranded request whose publisher is gone,
or free its slot, while the remote shows the same. `DispatchProgress.StrandedIsReachable` gives a run that gets there.

## A result stored behind another artifact's publication

A successful code result that must be published is stored only after a confirmed publication (`src/dispatch/completion.ts:107-112`). Which
one is confirmed is another matter. A publication that finds an unresolved operation of the request reconciles that operation and
answers with its receipt, whatever artifact it is of (`src/dispatch/publication.ts:120-133`). So when a first artifact's publication is
left unknown and the attempt then submits another artifact, a remote that turns out to have the first one confirms the second.

`DispatchFlows.AcceptResult` proves that a success is stored only behind a confirmed operation of the same attempt, and that this operation
is of the submitted artifact if and only if no unresolved operation of another artifact was the newest when publication was asked
for (`StandsIn`). `DispatchStandIn.SuccessOfUnpublishedArtifact` gives a run in which one was.

## A delivery that republishing does not hand back

After the queue database is restored to an earlier point, republishing everything delivered since that point is meant to repair it
(`src/dispatch/administration.ts:210-215`). It does not repair every loss. One delivery is one dispatch transaction: it chooses its row,
commits to the queue database and then stamps the row with `now()` (`src/dispatch/delivery.ts:14-32`), which is the time that transaction
began. A delivery that began before the restore point and committed to the queue after it is lost from the restored queue, and
its stamp is older than the restore point. `DeliveryRuns.RepublishMissesTheLate` gives such a run: root and reply are gone from queue and
archive, the row stays marked, and the request is not handed back.

`DeliveryRuns.RepublishRecovers` gives the exact condition: a forgotten request is handed back if and only if it is chosen and the given
time is no later than the beginning of the delivery that marked it, which `DeliveryRuns.StampIsBegin` proves to be what the stamp is.
An earlier time recovers more, and it also brings back threads that retention had archived, their replies unread
(`DeliveryRuns.RepublishReopensTheArchived`). `DeliveryRuns.ForgetsExactly` names the two steps that make a request forgotten: the restore
itself, and a mark behind it by a delivery that had committed before. Without a restore nothing is ever forgotten
(`DeliveryRuns.NothingIsForgotten`).

Smaller facts the proofs brought out:

* Retention reads which requests are due before it moves their threads (`src/dispatch/projection.ts:91-95`). It archives a thread whose newest
  snapshot is unpublished exactly when a republish took effect in between and no delivery followed (`DeliveryRuns.UnpublishedMovesExactly`,
  with the run `DeliveryRuns.UnpublishedThreadMoves`); what it archives is that very snapshot, whole.
* Reconciliation stores `failed` for an operation that is still PREPARED, without asking the port
  (`src/dispatch/publication.ts:100-103`). It never fails one for which the port was called.
* Canonical printing sorts keys with the host's locale comparison. It is canonical for a value exactly when that comparison ties no two
  keys of one of its objects (`CanonicalJson.CanonicalExactlyWithoutTies`); an undefined array item prints as nothing.
* A worker that may claim a job defers exactly when a ready peer outranks it, with one exception: the deference judges a peer by its
  capabilities alone (`src/dispatch/eligibility.ts:187-198`), so a HARNESS peer that holds just one dedicated capability is passed over
  although its runtime lets it claim the job (`ClaimFilter.DefersExactly`, with the input `ClaimFilter.MisjudgedPeerIsPassedOver`).
* Job branch and default branch must differ for the cascade that deletes remote branches: deleting the default branch itself can
  lose its tip (`GitBranches.CascadeOverMainLoses`).

## Model

| member | source | states |
|---|---|---|
| DispatchSoundness.PerformInv | src/dispatch/lifecycle.ts:19-63 | every transaction but a stale stop keeps the invariant of the rows |
| DispatchSoundness.StaleIsKept | src/dispatch/stop-evidence.ts:114-116 | what a stale stop leaves: an ended request whose capacity rows stand still and of which everything but the lock step holds |
| DispatchSoundness.PerformSound | src/dispatch/lifecycle.ts:19-63 | every transaction whatever leaves sound rows sound |
| DispatchEvolution.PerformEvolves | src/dispatch/lifecycle.ts:19-63 | whatever the transaction: histories only grow, resolved publications and released reservations stay, no permit is added for a revoked attempt, a terminal request is frozen |
| DispatchRuns.RunConsistent | src/dispatch/selection.ts:95-116 | every run, stale stops included, keeps all rows sound, slots exclusive, incarnations single per slot and claim keys unique |
| DispatchRuns.RunTracks | src/dispatch/lifecycle.ts:19-63 | a request that no stale stop hit satisfies the whole invariant, whatever happened to others |
| DispatchTheorems.SlotsAreExclusive | src/dispatch/selection.ts:95-116 | in every reachable state a slot has at most one open reservation over all requests, and a reservation is open exactly while its candidate is not finished or retired |
| DispatchTheorems.LiveRowsAgree | src/dispatch/attempts.ts:243-262 | a request that no stale stop hit is live exactly while an attempt is, and then request, candidate, attempt, reservation and incarnation agree |
| DispatchTheorems.CapacityNeedsStop | src/dispatch/lifecycle.ts:25-31 | a step that releases a claimed candidate's reservation leaves its attempt stopped on recorded evidence and nothing unresolved; unless the step itself accepts evidence, the attempt had stopped before |
| DispatchTheorems.UnstartedNeverPermitted | src/dispatch/stop-evidence.ts:93-112 | an attempt closed by a claim-bound stop or the orphan sweep never had and never gets a start permit |
| DispatchTheorems.PermitsNameOneScope | src/dispatch/attempts.ts:267-312 | all permits of an attempt are one and the same, for the attempt's own incarnation and scope |
| DispatchTheorems.PermitNeedsRights | src/dispatch/attempts.ts:80 | a permit is only returned by a start of an unrevoked, unstopped attempt for a scope of its incarnation, which is not signed off |
| DispatchTheorems.RunEvolves | src/dispatch/lifecycle.ts:19-63 | along every run the rows of a request only evolve |
| DispatchTheorems.EndedForever | src/dispatch/lifecycle.ts:19-23 | a terminal request stays as it is whatever follows, stale stops included |
| DispatchOutcomes.ResultExactlyWhenEnded | src/dispatch/lifecycle.ts:32-55 | a request has its one result exactly when it is terminal, and then nothing is unresolved |
| DispatchOutcomes.EndedStaysEnded | src/dispatch/lifecycle.ts:43-55 | no later step of a run leaves a terminal state or changes the result |
| DispatchOutcomes.OutboxTellsHistory | src/dispatch/outbox.ts:16-31 | the outbox row of version v records the state at version v for ever; row i says version i, also one written in the middle of a transaction, with the reply exactly in a terminal row, which is the last; versions are complete and nothing changes state without one |
| DispatchOutcomes.SuccessNeedsStop | src/dispatch/completion.ts:113-122 | SUCCEEDED is stored only by a last transaction that finds the current generation RUNNING, its attempt stopped on evidence and nothing unresolved |
| DispatchOutcomes.CancelWins | src/dispatch/completion.ts:118 | once CANCEL_REQUESTED, any pending result can only end the request as CANCELLED, and it never succeeds later |
| DispatchOutcomes.ResubmissionIsAnswered | src/dispatch/completion.ts:39-45 | after acceptance the same submission is answered with the stored result at any later time and changes nothing; any other is kept as late and refused |
| DispatchOutcomes.ClaimBoundFailureIsReplayed | src/dispatch/stop-evidence.ts:85-92 | the failure a supervisor submits after its claim-bound stop is an accepted replay at any later time |
| DispatchOutcomes.RetriesAreSingleUse | src/dispatch/retry-authorization.ts:4-11 | attempts are the first claim and one per consumed authorization; authorizations are consumed once; all attempts but the newest are terminal, stopped and revoked; one attempt per candidate |
| DispatchOutcomes.NewestAttemptIsOver | src/dispatch/retry-authorization.ts:4-11 | the newest attempt of a request that is not live, and that no stale stop hit, is over as well |
| DispatchOutcomes.RetriedRequestIsNeverStuck | src/dispatch/retry-authorization.ts:4-11 | in every reachable state a claimed request that waits or is reserved again does hold retry authority |
| DispatchOutcomes.SentOnceBehindTheGate | src/dispatch/publication.ts:134-143 | a call of the port leaves only after SENT is committed for that operation, and at most once for it, whether or not its publisher lives to see it come back |
| DispatchOutcomes.PublicationsAreSafe | src/dispatch/publication.ts:113-143 | at most one unresolved publication, no operation called twice, and a failed operation was never called, or came back having issued nothing, or was resolved by an operator |
| DispatchOutcomes.ResolvedForever | src/dispatch/publication.ts:94-99 | CONFIRMED and FAILED never change, nor does an operation's target |
| DispatchOutcomes.ReconcileNeverFailsASend | src/dispatch/publication.ts:100-104 | reconciliation sends nothing and fails an operation exactly when it never crossed the send gate |
| DispatchProgress.EndableExactly | src/dispatch/publication.ts:144-163 | from every reachable state, whatever the remote shows, operators can end a request with its slot released exactly when it has not ended with a slot reserved and its newest publication is not one past the send gate that the remote neither confirms nor lacks |
| DispatchProgress.StrandedForGood | src/dispatch/publication.ts:144-163 | such a publication, its publisher gone, is settled by no steps of anyone while the remote shows the same: the request does not end and keeps its slot |
| DispatchProgress.StrandedIsReachable | src/dispatch/publication.ts:155-156 | an ordinary run reaches it: the head has arrived, nothing else has, and no steps whatever end the request |
| DispatchProgress.OnlyStaleStopsWedge | src/dispatch/stop-evidence.ts:114-116 | a request that no stale stop hit never ends with a slot reserved |
| DispatchStale.StaleStopIsReachable | src/dispatch/stop-evidence.ts:114-116 | a run of ordinary steps reaches a stale stop that is accepted |
| DispatchStale.StaleStopLosesTheSlot | src/dispatch/recovery.ts:78 | after a stale stop the request is cancelled, its newest candidate live, and its slot never free again |
| DispatchStandIn.SuccessOfUnpublishedArtifact | src/dispatch/publication.ts:120-133 | a run that stores a success whose code artifact was never published, another artifact's operation having been confirmed for it |
| DispatchFlows.AcceptResult | src/dispatch/completion.ts:31-123 | acceptance over its transactions, publication included, with any steps of others in between: a receipt carries the one stored result; what this call stores is a success if and only if the submission is one, every check passes, authority stands, the request still runs, and code that must be published has a confirmed operation of its attempt, its own exactly when no other stood in; a success is stored as submitted, and so is a failure or cancellation that failed no check and no cancel overtook; a cancel makes any submission cancelled; each downgrade has its reason; and if nobody interferes and the publication goes well, the submission is accepted as it is |
| DispatchFlows.EndAnswers | src/dispatch/completion.ts:113-122 | when the last transaction of a pending result stores it, as what, and that its answer is what is stored |
| DispatchFlows.BeginAnswers | src/dispatch/completion.ts:46-82 | when the first transaction admits a submission, and what a cancel or a failed check has then made of it |
| DispatchFlows.PublishArtifact | src/dispatch/publication.ts:113-143 | publication over its transactions and the port's run, with any steps of others in between: the port is called exactly when the operation opens and its gate does; it is asked for the operation's own head over the head the operation expects; the answer, the operation's row and the record of the call are confirmed exactly when everything on the way succeeds, failed exactly when something fails unsent, unknown otherwise; a confirmed one has its head on the remote; and behind a closed gate the remote is not touched |
| DispatchFlows.GateDecides | src/dispatch/publication.ts:113-139 | an operation is opened exactly for the stopped, running, current attempt that nothing stands in the way of, and sent exactly while it still runs with authority; one that is opened and not sent has failed |
| DispatchFlows.QuietPublication | src/dispatch/publication.ts:113-143 | a publication nobody interferes with goes through, and leaves the rest of its request as it was |
| DispatchFlows.Publishes | src/dispatch/publication.ts:113-143 | a publication that reached its port and came back ends with the call recorded once, as it left and as it came back, and its answer stored |
| DispatchFlows.CalledAndStored | src/dispatch/publication.ts:140-143 | once the gate is open, the port's answer is recorded and stored whatever others do |
| DispatchFlows.OthersKeepLock | src/dispatch/publication.ts:164-168 | no step of another process moves a publisher that holds the lock, or calls the port for its request |
| DispatchInvariants.SubmitStopInv | src/dispatch/stop-evidence.ts:114-116 | a submitted stop keeps the invariant of the rows exactly when it is not stale |
| DispatchInvariants.StaleStopEnds | src/dispatch/lifecycle.ts:58-63 | what a stale stop leaves: a cancelled request with an open reservation and an attempt that is still being cancelled |
| DispatchInvariants.ClaimInv | src/dispatch/attempts.ts:209-262 | a claim keeps every row invariant, the slot move included |
| DispatchInvariants.StartInv | src/dispatch/attempts.ts:285-312 | a start keeps every row invariant |
| DispatchInvariants.FinishInv | src/dispatch/lifecycle.ts:43-55 | ending a live, stopped attempt with nothing unresolved always succeeds and keeps every row invariant |
| DispatchInvariants.CloseUnstartedInv | src/dispatch/stop-evidence.ts:128-131 | closing an unstarted attempt always succeeds and ends the request |
| DispatchInvariants.CancelOpenInv | src/dispatch/cancel.ts:28-55 | cancelling keeps every row invariant, with or without an attempt |
| DispatchInvariants.AuthorizeRetryInv | src/dispatch/recovery.ts:55-62 | authorizing a retry keeps every row invariant |
| DispatchInvariants.EndResultInv | src/dispatch/completion.ts:113-122 | the last transaction of any pending result keeps every row invariant |
| DispatchInvariants.SendingResolves | src/dispatch/publication.ts:146-163 | failing an unknown operation by attestation keeps the sending rules, now with that operation exempt |
| DispatchService.Transact | src/dispatch/db.ts:27-53 | a transaction commits its rows or leaves none |
| DispatchService.Service.Execute | src/dispatch/db.ts:27-53 | one transaction on the service's state: the state stays consistent whatever it is, no other request and no incarnation changes, and the request's own rows keep their whole invariant unless it is a stale stop |
| DispatchService.Service.SubmitRequest | src/dispatch/requests.ts:95-131 | intake is idempotent per principal and key: the same input is answered with the request it made, another input is a conflict, a refusal is given in the order of its causes, and none of these writes anything; a new key makes one waiting request |
| DispatchService.Service.RegisterIncarnation | src/dispatch/registration.ts:84-99 | registration is idempotent per key; a new incarnation signs off every other one of its slot and touches no request |
| DispatchService.Service.ClaimNext | src/dispatch/attempts.ts:193-264 | a claim key that took an attempt is answered with that attempt and changes nothing; otherwise the loop takes the first candidate that does not turn it away, at most one; it takes none exactly when all turn it away or the first that does not refuses authorization |
| DispatchService.Service.CloseSignedOffAttempts | src/dispatch/orphans.ts:10-26 | the sweep is the run of its single transactions, and counts those that closed an attempt |
| DispatchService.Service.MarkExpiredAttempts | src/dispatch/attempts.ts:375-403 | likewise for the lease sweep, each attempt under its own profile's maximum duration |
| DispatchLeases.ResumeUndoesExpiry | src/dispatch/attempts.ts:357-374 | resuming undoes an expiry but for the heartbeat and two versions |
| DispatchLeases.StartIsRepeatable | src/dispatch/attempts.ts:285-312 | starting again with the same scope returns the same permit and changes nothing else; another scope is refused |
| DispatchLeases.HeartbeatHoldsTheLease | src/dispatch/attempts.ts:326-403 | behind a first start, a renewal that keeps the lease or a resumption, and any steps that leave the attempt running and do not renew it, the sweep makes it uncertain exactly when the lease has run since then, revokes it behind its maximum duration, and spares it if it has stopped |
| DispatchLeases.ReservationHoldsUntilDeadline | src/dispatch/selection.ts:123-145 | behind any steps that leave it reserved, a candidate nobody ever claimed is retired, its slot freed, exactly when its job is idle and the lease has run since its reservation |
| DispatchDecisions.RenewalDecides | src/dispatch/attempts.ts:326-356 | which renewals keep the lease and record the heartbeat alone, which ask for a stop, and whether these change nothing, revoke the attempt or leave it uncertain |
| DispatchDecisions.ExpiryDecides | src/dispatch/attempts.ts:383-399 | which attempts the sweep spares, revokes and makes uncertain |
| DispatchDecisions.StartDecides | src/dispatch/attempts.ts:285-312 | which starts get a permit, and what the first one leaves |
| DispatchDecisions.ResumptionDecides | src/dispatch/attempts.ts:357-374 | which attempts run on, with what heartbeat |
| DispatchDecisions.StopDecides | src/dispatch/stop-evidence.ts:20-43 | a stop is accepted exactly on evidence that proves it; it ends a cancelled request whose newest attempt it stops, and changes that attempt's row alone in any other |
| DispatchDecisions.ClaimBoundStopDecides | src/dispatch/stop-evidence.ts:62-134 | a claim-bound stop is accepted exactly for a newest attempt that never began, or as a replay; the request then has failed, or is cancelled if a cancel waited for it |
| DispatchDecisions.OrphanDecides | src/dispatch/orphans.ts:16-24 | the sweep closes exactly the attempts that never began and whose incarnation is signed off |
| DispatchDecisions.RecoveryDecides | src/dispatch/recovery.ts:46-69 | when a recovery is accepted; closing leaves the request failed or cancelled, as asked, with the one result of its attempt and no slot; a retry leaves it waiting with a fresh, unconsumed authorization; the key is recorded and a replay changes nothing |
| DispatchDecisions.PreparationDecides | src/dispatch/sources.ts:93-102 | sources become ready once, before any attempt, and only while authorization and repository hold |
| DispatchDecisions.ReservationDecides | src/dispatch/selection.ts:75-121 | a waiting request with its sources gets a free, eligible slot and nothing else stops it, a retried one included |
| DispatchDecisions.RetirementDecides | src/dispatch/selection.ts:123-145 | a candidate of a never claimed request is retired exactly from its deadline on, when its job is idle |
| DispatchDecisions.RejectionDecides | src/dispatch/sources.ts:123-139 | a request that cannot start fails at once if it waits, and once its job is idle if it is reserved, with a result no attempt gave and no slot left |
| DispatchDecisions.ClaimDecides | src/dispatch/attempts.ts:209-262 | which claims take the reserved candidate, and all they change |
| DispatchDecisions.CancellationDecides | src/dispatch/cancel.ts:13-60 | with authority and the current version a cancel always goes through; whether it ends the request, or asks its attempt to stop, or finds it ended |
| DispatchSuccess.WaitingRequestSucceeds | src/dispatch/attempts.ts:187-312 | in every reachable state an executor that is live on a free slot takes any waiting request, by the ordinary transactions, to a success stored as submitted, and the slot is free again |
| DispatchTransactions.Rows.Enter | src/dispatch/lifecycle.ts:19-23 | a state change raises the version and writes the outbox row of that version, with a reply exactly when a result is set |
| DispatchTransactions.Rows.EndAttempt | src/dispatch/lifecycle.ts:25-31 | an attempt ends only when it has stopped and nothing published is unresolved; its candidate finishes and its reservation is released |
| DispatchTransactions.Rows.AddResult | src/dispatch/lifecycle.ts:32-36 | a second result is accepted only if it equals the first, and stores nothing |
| DispatchTransactions.Rows.Finish | src/dispatch/lifecycle.ts:43-55 | result, terminal state, released capacity and acceptance event together, or nothing |
| DispatchTransactions.Rows.FinishCancellation | src/dispatch/lifecycle.ts:58-63 | an accepted stop ends a cancellation with the fixed cancelled report, unless a publication is unresolved or a result exists |
| DispatchTransactions.Rows.PrepareSources | src/dispatch/sources.ts:93-102 | sources become ready once, for a request that waits or is reserved and was never claimed, if authorization and repository still hold |
| DispatchTransactions.Rows.ReserveSlot | src/dispatch/selection.ts:75-121 | a new generation's candidate with an open reservation of a free, eligible slot; a claimed request needs retry authority |
| DispatchTransactions.Rows.RetireExpired | src/dispatch/selection.ts:123-145 | an expired, unclaimed candidate of a never claimed request is retired, its slot released, and the request waits again |
| DispatchTransactions.Rows.RejectUnstartedRequest | src/dispatch/sources.ts:123-139 | a request that cannot start fails with a result no attempt gave, its open candidate retired |
| DispatchTransactions.Rows.ClaimCandidate | src/dispatch/attempts.ts:209-262 | the order of guards of one claim, the slot move, the attempt row, and the consumed retry authorization |
| DispatchTransactions.Rows.StartAttempt | src/dispatch/attempts.ts:285-312 | a permit is returned for the claimed attempt, which then starts once with its scope, or for the running one with the same recorded scope |
| DispatchTransactions.Rows.RenewAttempt | src/dispatch/attempts.ts:326-356 | heartbeat, lease expiry, lost authorization and maximum duration, each with what it answers |
| DispatchTransactions.Rows.ResumeAttempt | src/dispatch/attempts.ts:357-374 | an uncertain attempt runs on only with its recorded scope and within its duration |
| DispatchTransactions.Rows.ExpireAttempt | src/dispatch/attempts.ts:383-399 | the lease sweep for one attempt; a stopped attempt is left alone |
| DispatchTransactions.Rows.AcceptObservation | src/dispatch/stop-evidence.ts:20-43 | when a scoped observation is accepted as a stop, and that the same one is answered with its receipt again |
| DispatchTransactions.Rows.StopAttempt | src/dispatch/stop-evidence.ts:114-116 | a submitted stop, with the cancellation it may finish |
| DispatchTransactions.Rows.StopUnstarted | src/dispatch/stop-evidence.ts:62-134 | a claim-bound stop is accepted for the exact pre-scope signature only and ends the request in the same transaction; a replay changes nothing |
| DispatchTransactions.Rows.CloseSignedOff | src/dispatch/orphans.ts:16-24 | the same for an attempt whose incarnation was signed off before it started |
| DispatchTransactions.Rows.CancelRequest | src/dispatch/cancel.ts:13-60 | cancellation by key and expected version, for a request with and without an attempt |
| DispatchTransactions.Rows.AcceptRecoveryEvidence | src/dispatch/recovery.ts:28-45 | an operator's attestation is a stop for a started attempt, or for one without any start history |
| DispatchTransactions.Rows.RecoverRequest | src/dispatch/recovery.ts:46-69 | explicit recovery closes the request or authorizes one retry, once per key |
| DispatchTransactions.Rows.BeginCompletion | src/dispatch/completion.ts:46-82 | the first transaction of a result: replay, late result, refusal, or a pending result whose outcome a cancel or a failed check has already changed |
| DispatchTransactions.Rows.EndCompletion | src/dispatch/completion.ts:113-122 | the last transaction of a result: everything is checked again and a cancel in between wins |
| DispatchTransactions.Rows.BeginPublication | src/dispatch/publication.ts:113-133 | a publication is prepared for the stopped, running, current attempt; the newest one is answered or reconciled instead if it is the same or unresolved |
| DispatchTransactions.Rows.SendPublication | src/dispatch/publication.ts:135-139 | the send gate: SENT is committed, or the operation fails unsent |
| DispatchTransactions.Rows.StorePublication | src/dispatch/publication.ts:94-99 | a receipt is stored unless the operation is already resolved |
| DispatchTransactions.Rows.ReconcilePublication | src/dispatch/publication.ts:100-104 | a prepared operation fails, any other is confirmed or stays unknown |
| DispatchTransactions.Rows.ResolvePublication | src/dispatch/publication.ts:146-163 | an operator may only fail an unknown operation, by an attestation of a remote without its head, once per action key and the same way again |
| PublicationPort.Publish | src/dispatch/publication.ts:28-75 | an exception escapes exactly for a malformed or forbidden intent or when the run's own directory cannot be made, and then nothing was sent; sending confirms exactly what succeeds, fails exactly what fails with nothing sent, pushes exactly over the expected head once everything before has gone well, and creates a pull request exactly for a head that has arrived and behind complete pages without ours; looking writes nothing, never fails and confirms exactly what is there; a confirmation is earned; a lost create leaves the operation halfway |
| PublicationPort.HealthySucceeds | src/dispatch/publication.ts:28-75 | when nothing fails outside, and the remote's head is ours or the expected one, publishing succeeds |
| PublicationPort.PushedWithoutPull | src/dispatch/publication.ts:51-67 | our head on the remote and whole pages without a pull request of ours: neither confirmed nor lacking, however well everything goes |
| PublicationPort.HalfwayExactly | src/dispatch/publication.ts:44-67 | when nothing fails outside and the list stands still with at most one of ours: neither confirmed nor lacking exactly when a pull request was asked for and the remote has our head without a good one or a pull request of ours without our head |
| PublicationPort.List | src/dispatch/publication.ts:57-66 | the bounded pagination over pages as they are returned: exhausted means pages up to one that is not full, none of ours in them; one is found exactly when the first page with any of ours shows a good one alone |
| PublicationPort.SteadyWhole | src/dispatch/publication.ts:57-66 | if the list stands still, the pages show it whole exactly when it fits them and holds none of ours |
| PublicationPort.MatchingAppends | src/dispatch/publication.ts:60-64 | what matches in two pages is what matches in each |
| QueueProjection.Apply | src/dispatch/projection.ts:25-56 | a projection is applied exactly when its ids are free or its own; the root only rises, the reply is inserted once, nothing else is touched |
| QueueProjection.QueueStore.ApplyProjection | src/dispatch/projection.ts:25-56 | the transaction as it runs, rolled back as a whole on an identity conflict |
| QueueProjection.QueueStore.RecoverForgottenReads | src/dispatch/projection.ts:61-79 | only taken replies become unread again, at most the limit, below the limit all of them, and as many as are counted |
| DeliveryRuns.RunGood | src/dispatch/delivery.ts:10-39 | every order of writes, overlapping and crashing deliveries, reads, retention, restores and republishing keeps queue and archive a faithful mirror of the outbox, in every state of the queue |
| DeliveryRuns.DrainedShowsNewest | src/dispatch/delivery.ts:16-33 | a request whose newest row is marked is not forgotten if and only if the queue or the archive shows exactly its newest snapshot, with its reply if and only if that has one |
| DeliveryRuns.MessagesOnlyAdvance | src/dispatch/projection.ts:32-50 | over any run without a restore no root is lowered, no reply rewritten and no message lost |
| DeliveryRuns.ReplyFollowsRoot | src/dispatch/projection.ts:43-50 | a reply is visible only beside the root of the last version, and says what that version says |
| DeliveryRuns.ForgetsExactly | src/dispatch/delivery.ts:22-32 | a step makes a request forgotten exactly when it restores a queue that lacks its marked newest row, or marks the newest row behind such a restore |
| DeliveryRuns.NothingIsForgotten | src/dispatch/delivery.ts:22-32 | a run without a restore forgets nothing |
| DeliveryRuns.StampIsBegin | src/dispatch/delivery.ts:14-32 | a row is stamped with the time at which the delivery that marked it began |
| DeliveryRuns.RepublishRecovers | src/dispatch/administration.ts:227-231 | republishing hands a forgotten request back exactly when it is chosen and the delivery that marked it began at or after the given time |
| DeliveryRuns.RecoveredForGood | src/dispatch/administration.ts:210-215 | a request that was handed back is not forgotten again until the next restore |
| DeliveryRuns.RepublishMissesTheLate | src/dispatch/administration.ts:227-231 | a run in which a restored queue has lost root and reply and republishing from the restore point does not hand them back |
| DeliveryRuns.RepublishReopensTheArchived | src/dispatch/administration.ts:227-231 | in every run a republished, archived thread is delivered again, its reply unread, exactly when its newest row was stamped at or after the given time |
| DeliveryRuns.Projector.DeliverOne | src/dispatch/delivery.ts:14-33 | one delivery, a run of its steps, is confirmed exactly when nothing fails and the newest snapshot finds its ids free or its own; then the queue shows it and all rows of the request are published, and else nothing has changed |
| DeliveryRuns.Projector.DeliverOutbox | src/dispatch/delivery.ts:10-39 | one pass, beside any deliveries of others, is a run; it tries each due request at most once, and all of them below its limit; where no two requests share an id, exactly those wait for another attempt whose delivery failed or whose ids something else held, and all others are shown at their newest version; when nothing fails, none fails |
| DeliveryRuns.UnpublishedMovesExactly | src/dispatch/projection.ts:90-112 | retention moves a thread with an unpublished newest snapshot exactly when the pass has still to look at it, it is handled, and a republish took effect after the due reading with no delivery since; and then it archives that snapshot whole |
| DeliveryRuns.UnpublishedThreadMoves | src/dispatch/projection.ts:90-112 | a run in which it does |
| ThreadRetention.RetentionStore.RetainThread | src/dispatch/projection.ts:98-112 | a thread moves whole or not at all, only when all its messages are handled, and refuses when the archive holds something different |
| ThreadRetention.RetentionStore.RetainTerminalThreads | src/dispatch/projection.ts:89-115 | any pass loses, changes and invents nothing and leaves no reply without its root; of the due threads exactly those move that are handled and that the archive does not contradict, and the two counts are how many moved and how often a contradicted one was refused |
| ThreadRetention.RetentionStore.DeleteRole | src/dispatch/projection.ts:107-108 | deleting replies before roots never leaves a reply without its root |
| CanonicalJson.PrintIsCanonical | src/dispatch/lifecycle.ts:11-15 | a value whose keys are told apart prints like another exactly when they mean the same |
| CanonicalJson.CanonicalExactlyWithoutTies | src/dispatch/lifecycle.ts:11-15 | printing is canonical for a value exactly when the order of keys ties no two keys of one of its objects |
| CanonicalJson.EqualTextsMeanEqual | src/dispatch/lifecycle.ts:11-15 | equal texts mean equal values, always |
| CanonicalJson.TiesBreakCanonicity | src/dispatch/lifecycle.ts:13 | two members in either order print equally exactly when the order of keys tells them apart |
| CanonicalJson.TextUnique | src/dispatch/lifecycle.ts:11-15 | a printed text can be read in one way only |
| TarFields.TarStringReads | scripts/verify-release-package.ts:114-125 | a string field is accepted exactly when it is printable text padded with NULs |
| TarFields.PrintedReads | scripts/verify-release-package.ts:127-141 | an octal number printed by a strict writer is read back |
| TarFields.TarOctalIsExact | scripts/verify-release-package.ts:136-139 | no header number can be too large to be exact |
| TarFields.NormalPathIsNormal | scripts/verify-release-package.ts:148-166 | an accepted path is the root or a chain of plain names without a backslash |
| TarFields.NormalPathAccepts | scripts/verify-release-package.ts:148-166 | every such path is accepted unchanged |
| TarPreflight.Preflight | scripts/verify-release-package.ts:172-265 | the pass ends and gives the verdict, with the first error in order |
| TarPreflight.HeaderSum | scripts/verify-release-package.ts:213-216 | the loop computes the checksum with its own field blank |
| TarPreflight.AcceptedExactlyWhenTiled | scripts/verify-release-package.ts:172-265 | accepted are exactly the archives tiled by members with valid headers and distinct paths and closed by two or more zero blocks, and they are read in one way only |
| TarPreflight.AcceptedPathsAreNormal | scripts/verify-release-package.ts:241-248 | members of an accepted archive have pairwise different normal paths |
| TarWriter.WrittenIsRead | scripts/verify-release-package.ts:206-253 | a header of the strict writer is read as the member's path, kind and size |
| TarWriter.StrictArchivesAreAccepted | scripts/verify-release-package.ts:172-265 | every archive a strict ustar writer makes of members with distinct normal paths is accepted and read back |
| KeyedSort.SortIgnoresOrder | src/dispatch/eligibility.ts:352 | distinct entries are sorted to one list whatever order they come in |
| PoolSelection.EligibleExecutors | src/dispatch/eligibility.ts:320-362 | the loops compute the selection |
| PoolSelection.ListsExactly | src/dispatch/eligibility.ts:322-350 | a slot is listed for a profile and a route exactly when the profile admits the request and the slot suits it and is free |
| PoolSelection.OrderedSlots | src/dispatch/eligibility.ts:351-354 | every free slot once, higher tiers first, equal tiers by id |
| PoolSelection.EligibleIsOrdered | src/dispatch/eligibility.ts:360-361 | job pools before host pools, then by load, last reservation and profile |
| PoolSelection.LoadIsAShare | src/dispatch/eligibility.ts:355 | every load is at least zero and below one, and every pool offers a slot |
| PoolSelection.EligibleIgnoresOrder | src/dispatch/eligibility.ts:320-362 | any order of the same profiles and slots gives the same list |
| ClaimFilter.FilterAgrees | src/dispatch/eligibility.ts:108-118 | under three-valued logic the SQL filter selects a job exactly when user, product, runtime, queue state, binding, capability and kind admit it, kind being implied where the filter leaves it out |
| ClaimFilter.CapabilityAgrees | src/dispatch/eligibility.ts:232-247 | the capability condition and its predicate agree, nulls included |
| ClaimFilter.DefersToReadyPeer | src/dispatch/eligibility.ts:169-208 | a worker that may claim a job defers only to a live, idle peer of a strictly higher tier that may itself claim it |
| ClaimFilter.SomeReadyWorkerClaims | src/dispatch/eligibility.ts:127-168 | when some ready worker may claim a job, at least one such worker does not defer |
| ClaimFilter.DefersExactly | src/dispatch/eligibility.ts:169-208 | a worker that may claim a job defers exactly when a ready peer of its user and runtime is of a strictly higher tier and is not a HARNESS one with just a dedicated capability |
| ClaimFilter.MisjudgedPeerIsPassedOver | src/dispatch/eligibility.ts:187-198 | a job, a worker and such a peer for which it does not |
| ReportedCost.ParseRoundsUp | src/lib/harness-cost.ts:29-52 | an accepted amount is the value rounded up to millionths: never less, and less than one millionth more |
| ReportedCost.ParseAcceptsExactly | src/lib/harness-cost.ts:29-52 | accepted are exactly plain decimals of at most 64 characters and at most 999999.999999 |
| ReportedCost.ParseIsMonotone | src/lib/harness-cost.ts:29-52 | a larger value is never kept as a smaller amount |
| ReportedCost.ParseIsIdempotent | src/lib/harness-cost.ts:42-52 | reading an accepted amount again changes nothing |
| ReportedCost.FormatIsCanonical | src/lib/harness-cost.ts:42-52 | different amounts have different texts |
| TickRunner.RunSound | src/dispatch/server.ts:66-87 | in every order of events at most one tick is in flight and at most one connection attempt, session or reconnect timer exists |
| TickRunner.NoTickAfterStop | src/dispatch/server.ts:66-87 | no tick starts after the runner is stopped |
| TickRunner.NotificationBringsTick | src/dispatch/notify.ts:67-91 | whatever follows, an accepted notification is in the window, pending behind the tick in flight, or followed by a tick that starts after it, unless runner or listener was stopped |
| TickRunner.IntervalMeansTick | src/dispatch/server.ts:66-87 | behind an interval a tick is in flight, a new one if there was none, unless the runner was stopped |
| TickRunner.OneFollowUp | src/dispatch/server.ts:70-81 | any number of intervals, notifications and closing windows during a tick start no other; after it exactly one follows if an open window closed meanwhile, and none if not |
| TickRunner.TickLoop.TickEnded | src/dispatch/server.ts:72-77 | the loop goes round once more if it was woken and not stopped |
| TickRunner.TickListener.Drop | src/dispatch/notify.ts:92-101 | only the current session's end starts a reconnect |
| GitBranches.NothingIsLost | src/git/worktree.ts:290-464 | over any run of worktree creation and removal, pushes and branch deletions every commit stays in some branch of the clone or the remote |
| GitBranches.Clone.CreateWorktree | src/git/worktree.ts:290-397 | which branch a fresh or reused worktree is made on, when none is, and at which commit: a shared one at the remote's tip exactly if that has all of it or did once it was pushed, a fresh one under its own name exactly if that is free or safely freed |
| GitBranches.Clone.RemoveWorktree | src/git/worktree.ts:450-464 | a local branch goes exactly when it is not kept, the remote provably has its tip, and git answers |
| GitBranches.Clone.PushBranch | src/git/branch-safety.ts:79-119 | a push without force moves the remote branch only forward, and does so whenever the remote takes it |
| GitBranches.Clone.TryDeleteBranch | src/cancel/pbi-cascade.ts:268-298 | a remote branch goes exactly when its tip is merged and is the expected one, and git answers |
| GitBranches.ReuseKeeps | src/git/worktree.ts:318-347 | resetting a reused branch loses nothing, whatever the checks and the push in between answered |

## Left out

- DispatchTransactions.Rows.ReserveSlot: the pools a reservation tries are one eligible slot here; which pools those are is the subject of PoolSelection.
- DispatchTransactions.Rows.ClaimCandidate: the guards between authorization and the slot move are one eligibility answer; a repeated claim key is answered by Service.ClaimNext.
- DispatchTransactions.Rows.ResolvePublication: that an attestation names the operation, was observed since it was prepared and answers for its mode is one flag; its remote head is compared as in the source.
- DispatchTransactions.Rows.BeginCompletion: the checks of review documents, sources and code are one reason for which a success may be downgraded.
- DispatchFlows.AcceptResult: the transaction that records a task's verification writes no row of the model; what publication reads of it is part of an argument.
- DispatchFlows.PublishArtifact: what looking at the remote finds of an operation that already stands is an argument here; what it can find is the subject of PublicationPort.Publish.
- DispatchLeases.ReservationHoldsUntilDeadline: the pool's cooldown behind a retirement is part of the eligibility answer of the next reservation.
- ClaimFilter.FilterAgrees: the order of siblings in a sprint and the quota are outside the filter.
- DeliveryRuns.RepublishRecovers: one call names at most 500 requests; which they are is an argument here.
- DeliveryRuns.Projector.DeliverOutbox: a request of which another delivery holds an older row is skipped, where the service waits for that row's lock.
- ThreadRetention.RetentionStore.RetainTerminalThreads: what the dispatch database says about a request, its recovery events and unpublished rows, is given to the pass as flags.
- TickRunner.RunSound: a tick's settlement and the runner's reaction to it are one event.
- GitBranches.NothingIsLost: each check and the change it guards are one step, the default branch only fast-forwards, and it is known.
- CanonicalJson.PrintIsCanonical: lone surrogates, and how a number is printed, are outside the model.
- PoolSelection.EligibleIgnoresOrder: identifiers are compared by a total order, and loads are exact shares.
- Express routing, body parsing, status mapping, the REST client and tool registration.
- SQL text, locks, connection pools and isolation; database triggers and unique indexes are not part of this model.
- Cryptography, tokens, roles and product access: arguments of a step.
- Job and task rows that follow a request, artifacts, usage accounting and notifications.
- The shared transition table and projection builder are not part of this model: rejecting an unstarted request is taken to end in FAILED, and a projection to carry a reply exactly when a result is set.
- Source preparation up to its last transaction, its retries and the signed manifest.
- Operation receipts of administration, and the redaction of views.
- Fairness among waiting requests: the service does not promise it.
- The comparison of bindings in historical-binding.ts: a boolean of the steps that need it.
- Transitions of flows, rollups, plan verification, usage, idea materialisation and agent guides.
- Running git, npm, tar or the Forgejo API; only the effect on refs, pull requests and bytes is modelled.
