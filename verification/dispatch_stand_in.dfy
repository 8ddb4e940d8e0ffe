// An open publication of one artifact is reconciled in place of another artifact's own: a reachable run in which a result is
// stored as a success although nothing of its artifact was ever published.
module DispatchStandIn {
  import opened Options
  import opened DispatchRows
  import opened DispatchEvolution
  import opened DispatchRuns
  import opened DispatchService
  import opened DispatchFlows
  import Stale = DispatchStale

  const Good := Report(Succeeded, "done", "", Some("second"))
  const Waits := Submission(0, Good, Good)

  const AskFirst := BeginPublication(0, "first", "head", true, true, false)
  const AskSecond := BeginPublication(0, "second", "other", true, true, true)

  const Pipeline: seq<Op> := [
    StopAttempt(0, true, Stale.Halted), AskFirst, SendPublication(true), PortCalled, PortReturned(SaysUnknown, true), StorePublication,
    BeginCompletion(0, Good, true, true, None), AskSecond, EndCompletion(Waits, true, true)]

  // The rows after each of them.
  const Stopped := Stale.Begun.(attempts := [Stale.Started.(stopped := true, revoked := true)], stops := [StopAccepted(0, ContainerStopped, "digest")])
  const Opened := Stopped.(publications := [Publication(0, "first", "head", None, Prepared)], publisher := Some(ToSend(0)))
  const Released := Opened.(publications := [Publication(0, "first", "head", None, Sent)], publisher := Some(ToCall(0)))
  const Away := Released.(portCalls := [Left(0)], publisher := Some(ToReturn(0)))
  const Called := Away.(portCalls := [Left(0), Back(0, true)], publisher := Some(ToStore(0, SaysUnknown)))
  const Unsure := Called.(publications := [Publication(0, "first", "head", None, Unknown)], publisher := None)
  const Submitting := Unsure.(pending := multiset{Waits})
  const Found := Submitting.(publications := [Publication(0, "first", "head", None, Confirmed)])

  lemma Stops()
    ensures Perform(Stale.Begun, Pipeline[0], Nobody, false).rows == Stopped
  {
    assert Stale.Begun.startedScopes[0] == StartedScope(0, Stale.Container);
    assert RecordedScope(Stale.Begun.startedScopes, 0, Stale.Container);
    hide RecordedScope, Unresolved;
  }

  lemma Opens()
    ensures Perform(Stopped, AskFirst, Nobody, false).rows == Opened
  {}

  lemma Sends()
    ensures Perform(Opened, SendPublication(true), Nobody, false).rows == Released
  {}

  lemma Calls()
    ensures Perform(Released, PortCalled, Nobody, false).rows == Away && Perform(Away, PortReturned(SaysUnknown, true), Nobody, false).rows == Called
  {}

  lemma Stores()
    ensures Perform(Called, StorePublication, Nobody, false).rows == Unsure
  {}

  lemma Submits()
    ensures Perform(Unsure, Pipeline[6], Nobody, false).rows == Submitting
  {
    assert Unsure.stops[0].attempt == 0;
  }

  // The second artifact's publication is answered from the first one's operation.
  lemma StandsInFor()
    ensures ForeignKeys(Submitting) && StandsIn(Submitting, "second")
    ensures Perform(Submitting, AskSecond, Nobody, false) == Tx(Found, Published(Confirmed))
  {}

  lemma Ends()
    ensures ForeignKeys(Found)
    ensures var m := Perform(Found, Pipeline[8], Nobody, false).rows;
            m.state == Succeeded && m.results == [Result(Some(0), Good)] && m.publications == Found.publications
  {
    assert Found.stops[0].attempt == 0;
  }

  // In state One(l) an operation that names no incarnation leads to One(m).
  lemma OneMore(l: Ledger, op: Op, m: Ledger)
    requires ForeignKeys(l) && Perform(l, op, Nobody, false).rows == m
    requires op.StopAttempt? || !Lifecycle(op)
    ensures Next(Stale.One(l), Act(0, op)) == Stale.One(m)
  {
    hide Perform, ForeignKeys;
    Stale.FreeMatters(l, op, Nobody, false, SlotFree(Stale.One(l), 0));
    assert Stale.One(l).ledgers[0 := m] == map[0 := m];
  }

  function Acts(ops: seq<Op>): seq<Step> {
    if |ops| == 0 then [] else Acts(ops[..|ops| - 1]) + [Act(0, ops[|ops| - 1])]
  }

  // The run that starts the one attempt, then these operations.
  function Steps(n: nat): seq<Step>
    requires n <= |Pipeline|
  {
    Stale.Steps[..6] + Acts(Pipeline[..n])
  }

  lemma Longer(n: nat)
    requires n < |Pipeline|
    ensures Run(Empty, Steps(n + 1)) == Next(Run(Empty, Steps(n)), Act(0, Pipeline[n]))
  {
    hide Next;
    assert Pipeline[..n + 1][..n] == Pipeline[..n];
    assert Steps(n + 1) == Steps(n) + [Act(0, Pipeline[n])];
    RunOne(Empty, Steps(n), Act(0, Pipeline[n]));
  }

  lemma Base()
    ensures Run(Empty, Steps(0)) == Stale.One(Stale.Begun)
  {
    hide Perform, Run;
    Stale.FirstStart();
    assert Steps(0) == Stale.Steps[..6];
  }

  lemma ReachesGate()
    ensures Run(Empty, Steps(3)) == Stale.One(Released)
  {
    hide Perform, Run, Next, Steps;
    Base();
    Stops();
    Longer(0); OneMore(Stale.Begun, Pipeline[0], Stopped);
    Opens();
    Longer(1); OneMore(Stopped, Pipeline[1], Opened);
    Sends();
    Longer(2); OneMore(Opened, Pipeline[2], Released);
  }

  lemma Reaches()
    ensures Run(Empty, Steps(6)) == Stale.One(Unsure)
  {
    hide Perform, Run, Next, Steps;
    ReachesGate();
    Calls();
    Longer(3); OneMore(Released, Pipeline[3], Away);
    Longer(4); OneMore(Away, Pipeline[4], Called);
    Stores();
    Longer(5); OneMore(Called, Pipeline[5], Unsure);
  }

  lemma ReachesSubmission()
    ensures Run(Empty, Steps(7)) == Stale.One(Submitting)
  {
    hide Perform, Run, Next, Steps;
    Reaches();
    Submits();
    Longer(6); OneMore(Unsure, Pipeline[6], Submitting);
  }

  lemma ReachesEnd()
    ensures Run(Empty, Steps(9)) == Stale.One(Perform(Found, Pipeline[8], Nobody, false).rows)
  {
    hide Perform, Run, Next, Steps;
    ReachesSubmission();
    StandsInFor();
    Ends();
    Longer(7); OneMore(Submitting, AskSecond, Found);
    Longer(8); OneMore(Found, Pipeline[8], Perform(Found, Pipeline[8], Nobody, false).rows);
  }

  lemma Asked()
    ensures |Steps(7)| < |Steps(9)| && Steps(9)[..|Steps(7)|] == Steps(7) && Steps(9)[|Steps(7)|] == Act(0, AskSecond)
  {
    assert Pipeline[..9][..8] == Pipeline[..8] && Pipeline[..8][..7] == Pipeline[..7];
    assert Steps(8) == Steps(7) + [Act(0, AskSecond)] && Steps(9) == Steps(8) + [Act(0, Pipeline[8])];
  }

  // The result's own publication was asked for and answered as confirmed, the result is stored as a success, and the only
  // publication there ever was is of another artifact.
  lemma SuccessOfUnpublishedArtifact()
    ensures exists steps: seq<Step>, asked: nat ::
              && asked < |steps| && steps[asked] == Act(0, AskSecond) && AnswerOf(Run(Empty, steps[..asked]), Act(0, AskSecond)) == Published(Confirmed)
              && 0 in Run(Empty, steps).ledgers
              && var l := Run(Empty, steps).ledgers[0];
              && l.state == Succeeded && l.results == [Result(Some(0), Good)]
              && |l.publications| == 1 && l.publications[0].artifact == "first" && l.results[0].report.code == Some("second")
  {
    hide Perform, Run, Next, Steps, AnswerOf;
    ReachesSubmission();
    ReachesEnd();
    Ends();
    Asked();
    Answered();
    assert Run(Empty, Steps(9)[..|Steps(7)|]) == Stale.One(Submitting);
  }

  lemma Answered()
    ensures AnswerOf(Stale.One(Submitting), Act(0, AskSecond)) == Published(Confirmed)
  {
    hide Perform;
    StandsInFor();
    Stale.FreeMatters(Submitting, AskSecond, Nobody, false, SlotFree(Stale.One(Submitting), 0));
  }
}
