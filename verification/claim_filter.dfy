// Which queued job an ordinary worker may claim, as named predicates and as the SQL filter that is evaluated under
// three-valued logic; and why no job waits because every worker defers to another.
module ClaimFilter {
  import opened Options

  // Identifiers are never empty, so a set identifier is one that is there.
  type Id = s: string | |s| > 0 witness "x"

  datatype Job = Job(
    userId: Id, productId: Id, runtime: string, status: string, kind: string, source: string,
    requiredCapability: Option<string>, dispatchRequestId: Option<Id>,
    sprintRunId: Option<Id>, sprintStatus: Option<string>, earlierSibling: bool, taskId: Option<Id>, ideaId: Option<Id>)

  // An unmanaged worker; `product` narrows it to one product.
  datatype Worker = Worker(
    instance: Id, userId: Id, product: Option<Id>, runtime: string, capabilities: seq<string>, tier: Option<string>,
    quotaPct: Option<int>, minQuotaPct: Option<int>, managed: bool, alive: bool, busy: bool)

  const Standalone := {"IDEA_GRILL", "IDEA_MAKE_PLAN", "IDEA_REVIEW_PLAN", "IDEA_MAKE_SPEC", "IDEA_REVISE_SPEC", "IDEA_CHAT", "PLAN_CHAT", "PR_REVIEW",
                       "SPEC_REVIEW", "TASK_REVIEW"}

  /* ---- the named predicates ---- */

  predicate Dedicated(capabilities: seq<string>) { |capabilities| == 1 && capabilities[0] in {"deploy", "docs_audit"} }

  function UpperCase(capability: string): string { if capability == "deploy" then "DEPLOY" else "DOCS_AUDIT" }

  predicate Capability(j: Job, w: Worker) {
    if w.runtime == "HARNESS" then
      && j.requiredCapability == None
      && ((j.kind == "IDEA_CHAT" && j.source == "SYSTEM") || (j.kind == "TASK_IMPLEMENTATION" && j.source == "COPILOT" && j.sprintRunId == None)
          || (j.kind == "AGENT_CHAT" && j.source == "MANUAL"))
    else if Dedicated(w.capabilities) then
      j.requiredCapability == Some(w.capabilities[0]) && j.kind == UpperCase(w.capabilities[0]) && j.source in {"SYSTEM", "MANUAL"}
    else j.requiredCapability == None || j.requiredCapability.value in w.capabilities
  }

  predicate Kind(j: Job, w: Worker) {
    || w.runtime == "HARNESS"
    || StandaloneKind(j) || Operation(j) || FreePlanChat(j) || LooseTask(j) || SprintWork(j)
  }

  predicate StandaloneKind(j: Job) { j.kind in Standalone && j.source != "ORCHESTRATOR" }

  predicate Operation(j: Job) { j.kind in {"DEPLOY", "DOCS_AUDIT"} && j.source in {"SYSTEM", "MANUAL"} }

  predicate FreePlanChat(j: Job) { j.kind == "PLAN_CHAT" && j.source == "ORCHESTRATOR" && j.taskId == None && j.ideaId == None && j.sprintRunId == None }

  predicate LooseTask(j: Job) { j.kind == "TASK_IMPLEMENTATION" && j.source in {"MANUAL", "COPILOT"} }

  predicate SprintWork(j: Job) {
    j.kind in {"TASK_IMPLEMENTATION", "SPRINT_IMPLEMENTATION"} && j.sprintRunId != None && j.sprintStatus in {Some("QUEUED"), Some("RUNNING")}
  }

  predicate Product(j: Job, w: Worker) { w.product == None || w.product == Some(j.productId) }

  // Every named predicate the unmanaged claim filter covers.
  predicate MayClaim(j: Job, w: Worker) {
    && j.userId == w.userId && Product(j, w) && j.runtime == w.runtime && j.status == "QUEUED" && j.dispatchRequestId == None
    && Capability(j, w) && Kind(j, w)
  }

  predicate Quota(w: Worker) { w.quotaPct == None || w.quotaPct.value >= if w.minQuotaPct == None then 0 else w.minQuotaPct.value }

  /* ---- the same conditions in SQL ---- */

  datatype Tri = Yes | No | Null

  function Of(b: bool): Tri { if b then Yes else No }

  function And(a: Tri, b: Tri): Tri { if a == No || b == No then No else if a == Yes && b == Yes then Yes else Null }

  function Or(a: Tri, b: Tri): Tri { if a == Yes || b == Yes then Yes else if a == No && b == No then No else Null }

  function Not(a: Tri): Tri { match a case Yes => No case No => Yes case Null => Null }

  function Equals<T(==)>(a: Option<T>, b: Option<T>): Tri { if a == None || b == None then Null else Of(a == b) }

  function IsNull<T>(a: Option<T>): Tri { Of(a.None?) }

  // `value IN (list)`, and `value = ANY(list)`; a null value compares to nothing, except over an empty list.
  function In(value: Option<string>, list: seq<string>): Tri {
    if |list| == 0 then No else Or(Equals(value, Some(list[0])), In(value, list[1..]))
  }

  function Is(value: string, text: string): Tri { Equals(Some(value), Some(text)) }

  const StandaloneList := ["IDEA_GRILL", "IDEA_MAKE_PLAN", "IDEA_REVIEW_PLAN", "IDEA_MAKE_SPEC", "IDEA_REVISE_SPEC", "IDEA_CHAT", "PLAN_CHAT", "PR_REVIEW",
                           "SPEC_REVIEW", "TASK_REVIEW"]

  function SqlCapability(j: Job, w: Worker): Tri {
    if w.runtime == "HARNESS" then
      And(IsNull(j.requiredCapability),
          Or(And(Is(j.kind, "IDEA_CHAT"), Is(j.source, "SYSTEM")),
             Or(And(And(Is(j.kind, "TASK_IMPLEMENTATION"), Is(j.source, "COPILOT")), IsNull(j.sprintRunId)),
                And(Is(j.kind, "AGENT_CHAT"), Is(j.source, "MANUAL")))))
    else if w.capabilities == ["deploy"] then
      And(And(Equals(j.requiredCapability, Some("deploy")), Is(j.kind, "DEPLOY")), In(Some(j.source), ["SYSTEM", "MANUAL"]))
    else if w.capabilities == ["docs_audit"] then
      And(And(Equals(j.requiredCapability, Some("docs_audit")), Is(j.kind, "DOCS_AUDIT")), In(Some(j.source), ["SYSTEM", "MANUAL"]))
    else if |w.capabilities| > 0 then Or(IsNull(j.requiredCapability), In(j.requiredCapability, w.capabilities))
    else IsNull(j.requiredCapability)
  }

  function SqlKind(j: Job): Tri {
    Or(SqlStandalone(j), Or(SqlOperation(j), Or(SqlPlanChat(j), Or(SqlLooseTask(j), SqlSprintWork(j)))))
  }

  function SqlStandalone(j: Job): Tri { And(In(Some(j.kind), StandaloneList), Not(Is(j.source, "ORCHESTRATOR"))) }

  function SqlOperation(j: Job): Tri {
    Or(And(Is(j.kind, "DEPLOY"), In(Some(j.source), ["SYSTEM", "MANUAL"])), And(Is(j.kind, "DOCS_AUDIT"), In(Some(j.source), ["SYSTEM", "MANUAL"])))
  }

  function SqlPlanChat(j: Job): Tri {
    And(Is(j.kind, "PLAN_CHAT"), And(Is(j.source, "ORCHESTRATOR"), And(IsNull(j.taskId), And(IsNull(j.ideaId), IsNull(j.sprintRunId)))))
  }

  function SqlLooseTask(j: Job): Tri { And(Is(j.kind, "TASK_IMPLEMENTATION"), In(Some(j.source), ["MANUAL", "COPILOT"])) }

  function SqlSprintWork(j: Job): Tri {
    And(In(Some(j.kind), ["TASK_IMPLEMENTATION", "SPRINT_IMPLEMENTATION"]), And(Not(IsNull(j.sprintRunId)), In(j.sprintStatus, ["QUEUED", "RUNNING"])))
  }

  // The WHERE clause; a HARNESS worker and a dedicated one carry no separate condition on the kind.
  function SqlFilter(j: Job, w: Worker): Tri {
    var base := And(And(Is(j.userId, w.userId), if w.product == None then Yes else Is(j.productId, w.product.value)),
                    And(And(Is(j.runtime, w.runtime), Is(j.status, "QUEUED")), And(IsNull(j.dispatchRequestId), SqlCapability(j, w))));
    if w.runtime == "HARNESS" || Dedicated(w.capabilities) then base else And(base, SqlKind(j))
  }

  lemma {:induction false} InList(value: Option<string>, list: seq<string>)
    ensures In(value, list) == Yes <==> value.Some? && value.value in list
  {
    if |list| > 0 { InList(value, list[1..]); }
  }

  lemma CapabilityAgrees(j: Job, w: Worker)
    ensures SqlCapability(j, w) == Yes <==> Capability(j, w)
  {
    hide In;
    InList(Some(j.source), ["SYSTEM", "MANUAL"]);
    InList(j.requiredCapability, w.capabilities);
    if Dedicated(w.capabilities) { assert w.capabilities == [w.capabilities[0]]; }
  }

  lemma KindAgrees(j: Job, w: Worker)
    requires w.runtime != "HARNESS"
    ensures SqlKind(j) == Yes <==> Kind(j, w)
  {
    hide StandaloneKind, Operation, FreePlanChat, LooseTask, SprintWork, SqlStandalone, SqlOperation, SqlPlanChat, SqlLooseTask, SqlSprintWork;
    StandaloneAgrees(j);
    OperationAgrees(j);
    TaskAgrees(j);
  }

  lemma StandaloneAgrees(j: Job)
    ensures SqlStandalone(j) == Yes <==> StandaloneKind(j)
    ensures SqlPlanChat(j) == Yes <==> FreePlanChat(j)
  {
    hide In;
    InList(Some(j.kind), StandaloneList);
    assert forall k :: k in StandaloneList <==> k in Standalone;
  }

  lemma OperationAgrees(j: Job)
    ensures SqlOperation(j) == Yes <==> Operation(j)
  {
    hide In;
    InList(Some(j.source), ["SYSTEM", "MANUAL"]);
  }

  lemma TaskAgrees(j: Job)
    ensures SqlLooseTask(j) == Yes <==> LooseTask(j)
    ensures SqlSprintWork(j) == Yes <==> SprintWork(j)
  {
    hide In;
    InList(Some(j.source), ["MANUAL", "COPILOT"]);
    InList(Some(j.kind), ["TASK_IMPLEMENTATION", "SPRINT_IMPLEMENTATION"]);
    InList(j.sprintStatus, ["QUEUED", "RUNNING"]);
  }

  // The SQL filter selects a row exactly when every predicate it covers holds of it, nulls and all; leaving the kind out for
  // HARNESS and dedicated workers changes nothing, because their capability already implies it.
  lemma FilterAgrees(j: Job, w: Worker)
    ensures SqlFilter(j, w) == Yes <==> MayClaim(j, w)
  {
    hide SqlCapability, SqlKind, Capability, Kind;
    CapabilityAgrees(j, w);
    if w.runtime != "HARNESS" { KindAgrees(j, w); }
    SpecialKinds(j, w);
  }

  lemma SpecialKinds(j: Job, w: Worker)
    ensures (w.runtime == "HARNESS" || Dedicated(w.capabilities)) && Capability(j, w) ==> Kind(j, w)
  {}

  /* ---- deference to a higher tier ---- */

  function Priority(tier: Option<string>): Option<int> {
    if tier == Some("HIGH_P") then Some(3) else if tier == Some("MEDIUM_P") then Some(2) else if tier == Some("LOW_P") then Some(1) else None
  }

  function Higher(a: Option<string>, b: Option<string>): Tri {
    if Priority(a) == None || Priority(b) == None then Null else Of(Priority(a).value > Priority(b).value)
  }

  // Whether a peer could claim the job, as the guard of the deference asks it.
  function SqlGuard(j: Job, w: Worker): Tri {
    if w.capabilities == ["deploy"] then
      And(And(Is(j.kind, "DEPLOY"), Equals(j.requiredCapability, Some("deploy"))), In(Some(j.source), ["SYSTEM", "MANUAL"]))
    else if w.capabilities == ["docs_audit"] then
      And(And(Is(j.kind, "DOCS_AUDIT"), Equals(j.requiredCapability, Some("docs_audit"))), In(Some(j.source), ["SYSTEM", "MANUAL"]))
    else Or(IsNull(j.requiredCapability), In(j.requiredCapability, w.capabilities))
  }

  function SqlQuota(w: Worker): Tri { Or(IsNull(w.quotaPct), if w.quotaPct == None then Null else Of(w.quotaPct.value >= if w.minQuotaPct == None then 0 else w.minQuotaPct.value)) }

  // The peer's row, as the inner query of the deference selects it.
  function SqlPeer(j: Job, self: Worker, w: Worker): Tri {
    And(And(And(Is(w.userId, self.userId), if w.product == None then Yes else Is(w.product.value, j.productId)),
            And(Is(w.runtime, self.runtime), Not(Is(w.instance, self.instance)))),
        And(And(Not(Of(w.managed)), Higher(w.tier, self.tier)),
            And(SqlGuard(j, w), And(Of(w.alive), And(SqlQuota(w), Not(Of(w.busy)))))))
  }

  // A worker without a tier never defers.
  predicate Defers(j: Job, self: Worker, peers: set<Worker>) {
    self.tier.Some? && exists w :: w in peers && SqlPeer(j, self, w) == Yes
  }

  // Alive, idle, within quota, unmanaged, and free to claim the job.
  predicate Ready(j: Job, w: Worker) { w.alive && !w.busy && Quota(w) && !w.managed && MayClaim(j, w) }

  // A worker that may claim a job defers only to a ready peer of a strictly higher tier: one that may itself claim it.
  lemma DefersToReadyPeer(j: Job, self: Worker, w: Worker)
    requires MayClaim(j, self) && SqlPeer(j, self, w) == Yes
    ensures Ready(j, w) && Priority(w.tier).Some? && Priority(self.tier).Some? && Priority(w.tier).value > Priority(self.tier).value
  {
    hide In, Kind;
    InList(Some(j.source), ["SYSTEM", "MANUAL"]);
    InList(j.requiredCapability, w.capabilities);
    if Dedicated(w.capabilities) { assert w.capabilities == [w.capabilities[0]]; }
    SpecialKinds(j, w);
    KindIsShared(j, self, w);
  }

  // The worker is another instance of the same user and runtime, and of a strictly higher tier.
  predicate Outranks(w: Worker, self: Worker) {
    && w.instance != self.instance && w.userId == self.userId && w.runtime == self.runtime
    && Priority(w.tier).Some? && Priority(self.tier).Some? && Priority(w.tier).value > Priority(self.tier).value
  }

  // The deference judges such a peer by its capability, though its runtime decides what it may claim.
  predicate Misjudged(w: Worker) { w.runtime == "HARNESS" && Dedicated(w.capabilities) }

  lemma PeerExactly(j: Job, self: Worker, w: Worker)
    requires MayClaim(j, self)
    ensures SqlPeer(j, self, w) == Yes <==> Ready(j, w) && Outranks(w, self) && !Misjudged(w)
  {
    hide In, Kind;
    InList(Some(j.source), ["SYSTEM", "MANUAL"]);
    InList(j.requiredCapability, w.capabilities);
    if Dedicated(w.capabilities) { assert w.capabilities == [w.capabilities[0]]; }
    SpecialKinds(j, w);
    if w.runtime == self.runtime { KindIsShared(j, self, w); }
  }

  // A worker that may claim a job defers exactly when there is a ready peer that outranks it and is not misjudged.
  lemma DefersExactly(j: Job, self: Worker, peers: set<Worker>)
    requires MayClaim(j, self)
    ensures Defers(j, self, peers) <==> exists w :: w in peers && Ready(j, w) && Outranks(w, self) && !Misjudged(w)
  {
    hide SqlPeer, Ready, MayClaim, Misjudged;
    forall w | w in peers ensures SqlPeer(j, self, w) == Yes <==> Ready(j, w) && Outranks(w, self) && !Misjudged(w) { PeerExactly(j, self, w); }
    assert self.tier.None? ==> Priority(self.tier).None?;
  }

  // A chat for a harness, a worker of the lowest tier that may claim it, and an idle peer of the highest that holds one dedicated
  // capability: the peer is ready and outranks the worker, which does not defer.
  lemma MisjudgedPeerIsPassedOver()
    ensures var j := Job("u", "p", "HARNESS", "QUEUED", "AGENT_CHAT", "MANUAL", None, None, None, None, false, None, None);
            var self := Worker("a", "u", None, "HARNESS", [], Some("LOW_P"), None, None, false, true, false);
            var peer := self.(instance := "b", tier := Some("HIGH_P"), capabilities := ["deploy"]);
            MayClaim(j, self) && Ready(j, peer) && Outranks(peer, self) && !Defers(j, self, {peer})
  {
    var j := Job("u", "p", "HARNESS", "QUEUED", "AGENT_CHAT", "MANUAL", None, None, None, None, false, None, None);
    var self := Worker("a", "u", None, "HARNESS", [], Some("LOW_P"), None, None, false, true, false);
    DefersExactly(j, self, {self.(instance := "b", tier := Some("HIGH_P"), capabilities := ["deploy"])});
  }

  lemma KindIsShared(j: Job, self: Worker, w: Worker)
    requires w.runtime == self.runtime
    ensures Kind(j, self) == Kind(j, w)
  {}

  // No tier deadlock: when some ready worker may claim the job, at least one ready worker does not defer.
  lemma SomeReadyWorkerClaims(j: Job, workers: set<Worker>)
    requires exists w :: w in workers && Ready(j, w)
    ensures exists w :: w in workers && Ready(j, w) && !Defers(j, w, workers)
  {
    hide SqlPeer, Ready;
    var ready := set w | w in workers && Ready(j, w);
    var first :| first in workers && Ready(j, first);
    assert first in ready;
    var best := Highest(ready, first);
    forall w | w in workers && Ready(j, w) ensures Rank(w) <= Rank(best) { assert w in ready; }
    if Defers(j, best, workers) {
      var w :| w in workers && SqlPeer(j, best, w) == Yes;
      ReadyClaims(j, best);
      DefersToReadyPeer(j, best, w);
    }
  }

  lemma ReadyClaims(j: Job, w: Worker)
    requires Ready(j, w)
    ensures MayClaim(j, w)
  {}

  function Rank(w: Worker): int { if Priority(w.tier) == None then 0 else Priority(w.tier).value }

  // A worker of the highest tier there is.
  lemma {:induction false} Highest(workers: set<Worker>, first: Worker) returns (best: Worker)
    requires first in workers
    ensures best in workers && forall w :: w in workers ==> Rank(w) <= Rank(best)
    decreases |workers|
  {
    hide Rank;
    var rest := workers - {first};
    if rest == {} {
      best := first;
      assert workers == {first};
    } else {
      var second :| second in rest;
      best := Highest(rest, second);
      if Rank(best) < Rank(first) { best := first; }
      assert forall w :: w in workers ==> w == first || w in rest;
    }
  }
}
