/**
 The records of the planner, executor and reviewer of a central task, and the validators that bind
 them to each other by digest.  A digest is represented by what it is the digest of: distinct
 record shapes have distinct canonical forms, and SHA-256 is taken to be injective.
 */
module CentralProtocol {
  import opened Options
  import opened ArtifactManifest

  datatype Role = Planner | Executor | Reviewer

  const ROLES := [Planner, Executor, Reviewer]

  /** A string of a record: a digest of something modelled here, of other bytes, or any other text. */
  datatype Text =
    | Plain(text: nat)
    | OfBytes(bytes: nat)
    | OfPlan(plan: Plan)
    | OfManifest(manifest: Manifest)
    | OfInputs(inputs: Inputs)
    | OfJob(job: JobBody)
    | OfResult(result: ResultBody)
    | Locator(bundle: Text)
    | EventId(key: Text, revision: Text)

  predicate IsDigest(t: Text)
  {
    !t.Plain? && !t.Locator? && !t.EventId?
  }

  /** `sound` stands for the checks of the steps, texts and artifact names of a plan. */
  datatype Plan = Plan(criteria: set<nat>, content: nat, sound: bool)

  predicate PlanOk(p: Plan)
  {
    p.sound && 1 <= |p.criteria| <= 64
  }

  /** `sound` stands for the per-file checks and the aggregate budget of prepared inputs. */
  datatype Inputs = Inputs(content: nat, sound: bool)

  /** A notification event with its task key and assignment revision. */
  datatype Task = Task(event: Text, key: Text, revision: Text)

  /** An event is named after its task and revision. */
  predicate Genuine(t: Task)
  {
    t.key.Plain? && t.revision.Plain? && t.event == EventId(t.key, t.revision)
  }

  /** The part of a job that all three roles share. */
  datatype Identity = Identity(task: Task, specification: Text, inputManifest: Text, snapshot: nat, inputs: Inputs)

  datatype Dependency =
    | PlannerJobId | PlanDigest | PlannerResultDigest
    | ExecutorJobId | ExecutorResultDigest | ArtifactManifestDigest | ArtifactBundleDigest

  predicate NamesDigest(d: Dependency)
  {
    d != PlannerJobId && d != ExecutorJobId
  }

  datatype JobBody = JobBody(
    role: Role, identity: Identity, dependencies: map<Dependency, Text>,
    plan: Option<Plan>, executorResult: Option<Result>)

  datatype Job = Job(jobId: Text, body: JobBody)

  /** What a result says beyond its texts; a failure says nothing more. */
  datatype Detail =
    | Failure
    | PlanDetail(plan: Plan, planDigest: Text)
    | ExecutionDetail(
        evidence: set<nat>, manifest: Manifest, manifestDigest: Text, bundleDigest: Text, locator: Text)
    | ReviewDetail(accepted: bool, decisions: map<nat, bool>, dependencyDigests: map<Dependency, Text>)

  /** `sound` stands for the size bound and the checks of summary, report, evidence and findings texts. */
  datatype ResultBody = ResultBody(jobId: Text, role: Role, content: nat, detail: Detail, sound: bool)

  datatype Result = Result(body: ResultBody, digest: Text)

  predicate Succeeded(r: Result)
  {
    !r.body.detail.Failure?
  }

  // ----- single records

  predicate ResultOk(r: Result, role: Role)
  {
    && r.body.sound
    && r.digest == OfResult(r.body)
    && match r.body.detail
       case Failure => true
       case PlanDetail(plan, digest) => role == Planner && PlanOk(plan) && digest == OfPlan(plan)
       case ExecutionDetail(_, manifest, digest, bundle, locator) =>
         && role == Executor && ValidManifest(manifest) && digest == OfManifest(manifest)
         && IsDigest(bundle) && locator == Locator(bundle)
       case ReviewDetail(accepted, decisions, digests) =>
         && role == Reviewer && decisions != map[]
         && (forall d | d in digests :: IsDigest(digests[d]))
         && (accepted <==> forall c | c in decisions :: decisions[c])
  }

  function ExpectedDependencies(role: Role): set<Dependency>
  {
    match role
    case Planner => {}
    case Executor => {PlannerJobId, PlanDigest, PlannerResultDigest}
    case Reviewer =>
      {PlannerJobId, PlanDigest, PlannerResultDigest,
       ExecutorJobId, ExecutorResultDigest, ArtifactManifestDigest, ArtifactBundleDigest}
  }

  predicate JobOk(job: Job, expected: Text)
  {
    var b := job.body;
    && job.jobId == expected
    && b.identity.task.event.EventId? && b.identity.task.key.Plain? && b.identity.task.revision.Plain?
    && IsDigest(b.identity.specification)
    && b.identity.inputs.sound && b.identity.inputManifest == OfInputs(b.identity.inputs)
    && (forall d | d in b.dependencies && NamesDigest(d) :: IsDigest(b.dependencies[d]))
    && job.jobId == OfJob(b)
    && b.dependencies.Keys == ExpectedDependencies(b.role)
    && (b.plan.Some? <==> b.role != Planner)
    && (b.executorResult.Some? <==> b.role == Reviewer)
  }

  function DigestsOf(dependencies: map<Dependency, Text>): map<Dependency, Text>
  {
    map d | d in dependencies && NamesDigest(d) :: dependencies[d]
  }

  predicate Depends(b: JobBody, d: Dependency, value: Text)
  {
    d in b.dependencies && b.dependencies[d] == value
  }

  /** A review job carries the very result that its dependencies name. */
  predicate CarriesExecution(b: JobBody, executor: Text, r: Result)
  {
    && r.body.jobId == executor
    && Depends(b, ExecutorResultDigest, r.digest)
    && r.body.detail.ExecutionDetail?
    && Depends(b, ArtifactManifestDigest, r.body.detail.manifestDigest)
    && Depends(b, ArtifactBundleDigest, r.body.detail.bundleDigest)
  }

  /** A result in the context of its job. */
  predicate ContextOk(job: Job, r: Result)
  {
    var b := job.body;
    && r.body.jobId == job.jobId && r.body.role == b.role
    && ResultOk(r, b.role)
    && (Succeeded(r) && b.role != Planner ==>
          && b.plan.Some? && PlanOk(b.plan.value)
          && Depends(b, PlanDigest, OfPlan(b.plan.value))
          && (b.role == Executor ==> r.body.detail.evidence == b.plan.value.criteria)
          && (b.role == Reviewer ==>
                && r.body.detail.decisions.Keys == b.plan.value.criteria
                && r.body.detail.dependencyDigests == DigestsOf(b.dependencies)
                && b.executorResult.Some?
                && ResultOk(b.executorResult.value, Executor)
                && ExecutorJobId in b.dependencies
                && CarriesExecution(b, b.dependencies[ExecutorJobId], b.executorResult.value)))
  }

  // ----- chains

  predicate SameTask(job: Job, planner: Job)
  {
    job.body.identity == planner.body.identity
  }

  predicate MemberOk(jobs: seq<Job>, ids: seq<Text>, i: nat)
    requires i < |jobs| == |ids| && |ids| <= 3
  {
    IsDigest(ids[i]) && JobOk(jobs[i], ids[i]) && jobs[i].body.role == ROLES[i]
  }

  /** The three jobs of a complete chain. */
  predicate JobChainOk(jobs: seq<Job>, ids: seq<Text>, task: Task)
  {
    && |jobs| == 3 && |ids| == 3
    && (forall i | 0 <= i < 3 :: MemberOk(jobs, ids, i))
    && jobs[0].body.identity.task == task
    && SameTask(jobs[1], jobs[0]) && SameTask(jobs[2], jobs[0])
    && jobs[1].body.plan == jobs[2].body.plan
    && jobs[1].body.plan.Some? && PlanOk(jobs[1].body.plan.value)
    && Depends(jobs[1].body, PlannerJobId, jobs[0].jobId)
    && Depends(jobs[1].body, PlanDigest, OfPlan(jobs[1].body.plan.value))
    && Depends(jobs[2].body, PlannerJobId, jobs[0].jobId)
    && Depends(jobs[2].body, PlanDigest, OfPlan(jobs[1].body.plan.value))
    && PlannerResultDigest in jobs[1].body.dependencies
    && Depends(jobs[2].body, PlannerResultDigest, jobs[1].body.dependencies[PlannerResultDigest])
    && Depends(jobs[2].body, ExecutorJobId, jobs[1].jobId)
    && jobs[2].body.executorResult.Some?
    && ContextOk(jobs[1], jobs[2].body.executorResult.value)
    && CarriesExecution(jobs[2].body, jobs[1].jobId, jobs[2].body.executorResult.value)
  }

  /** The three results of a complete chain, all successful and the work accepted. */
  predicate ResultChainOk(jobs: seq<Job>, results: seq<Result>, ids: seq<Text>, task: Task)
  {
    && JobChainOk(jobs, ids, task)
    && |results| == 3
    && (forall i | 0 <= i < 3 :: ContextOk(jobs[i], results[i]) && Succeeded(results[i]))
    && Depends(jobs[1].body, PlannerResultDigest, results[0].digest)
    && results[0].body.detail.PlanDetail?
    && Some(results[0].body.detail.plan) == jobs[1].body.plan
    && Depends(jobs[1].body, PlanDigest, results[0].body.detail.planDigest)
    && jobs[2].body.executorResult == Some(results[1])
    && results[2].body.detail.ReviewDetail? && results[2].body.detail.accepted
  }

  /** Role by role: what binds job `i` of a terminal chain to the records before it. */
  predicate TerminalLink(jobs: seq<Job>, results: seq<Result>, i: nat)
    requires i < |jobs| == |results|
  {
    i > 0 ==>
      && Succeeded(results[0]) && results[0].body.detail.PlanDetail?
      && SameTask(jobs[i], jobs[0])
      && Depends(jobs[i].body, PlannerJobId, jobs[0].jobId)
      && Depends(jobs[i].body, PlannerResultDigest, results[0].digest)
      && Depends(jobs[i].body, PlanDigest, results[0].body.detail.planDigest)
      && (i == 2 ==>
            && Succeeded(results[1])
            && Depends(jobs[2].body, ExecutorJobId, jobs[1].jobId)
            && CarriesExecution(jobs[2].body, jobs[1].jobId, results[1])
            && jobs[2].body.executorResult == Some(results[1]))
  }

  /** One record of a terminal chain, in its place. */
  predicate RecordOk(jobs: seq<Job>, results: seq<Result>, ids: seq<Text>, i: nat)
    requires i < |jobs| == |results| == |ids| && |ids| <= 3
  {
    && MemberOk(jobs, ids, i)
    && ContextOk(jobs[i], results[i])
    && TerminalLink(jobs, results, i)
  }

  predicate Unique(ids: seq<Text>)
  {
    forall i, j | 0 <= i < j < |ids| :: ids[i] != ids[j]
  }

  predicate IsTerminal(r: Result, n: nat)
  {
    Succeeded(r) ==> n == 3 && r.body.detail.ReviewDetail? && !r.body.detail.accepted
  }

  /** A failed or rejected prefix of the chain. */
  predicate TerminalChainOk(jobs: seq<Job>, results: seq<Result>, ids: seq<Text>, task: Task)
  {
    && 1 <= |ids| <= 3 && |jobs| == |ids| && |results| == |ids|
    && Unique(ids)
    && (forall i | 0 <= i < |ids| :: RecordOk(jobs, results, ids, i))
    && jobs[0].body.identity.task == task
    && IsTerminal(results[|results| - 1], |results|)
  }

  /** The jobs alone, when results have been reclaimed already. */
  predicate JobPrefixOk(jobs: seq<Job>, ids: seq<Text>, task: Task)
  {
    && 1 <= |ids| <= 3 && |jobs| == |ids|
    && (forall i | 0 <= i < |ids| ::
          JobOk(jobs[i], ids[i]) && jobs[i].body.role == ROLES[i] && SameTask(jobs[i], jobs[0]))
    && jobs[0].body.identity.task == task
  }

  /** The loop over a terminal chain, record by record. */
  method ValidateTerminalChain(jobs: seq<Job>, results: seq<Result>, ids: seq<Text>, task: Task)
    returns (ok: bool)
    ensures ok <==> TerminalChainOk(jobs, results, ids, task)
  {
    hide RecordOk, IsTerminal;
    if !(1 <= |ids| <= 3) || |jobs| != |ids| || |results| != |ids| || !Unique(ids) { return false; }
    for i := 0 to |ids|
      invariant forall k | 0 <= k < i :: RecordOk(jobs, results, ids, k)
      invariant i > 0 ==> jobs[0].body.identity.task == task
    {
      if !RecordOk(jobs, results, ids, i) { return false; }
      if i == 0 && jobs[0].body.identity.task != task { return false; }
    }
    return IsTerminal(results[|results| - 1], |results|);
  }

  // ----- the chain determines history

  /** A job id is the digest of its job. */
  lemma IdFixesJob(jobs: seq<Job>, ids: seq<Text>, others: seq<Job>, otherIds: seq<Text>, i: nat)
    requires i < |jobs| == |ids| && |ids| <= 3 && i < |others| == |otherIds| && |otherIds| <= 3
    requires MemberOk(jobs, ids, i) && MemberOk(others, otherIds, i) && jobs[i].jobId == others[i].jobId
    ensures jobs[i] == others[i] && ids[i] == otherIds[i]
  {
  }

  /** The id of the review job fixes all three jobs. */
  lemma ReviewerFixesJobs(
      jobs: seq<Job>, others: seq<Job>, ids: seq<Text>, otherIds: seq<Text>, task: Task, task': Task)
    requires JobChainOk(jobs, ids, task) && JobChainOk(others, otherIds, task')
    requires jobs[2].jobId == others[2].jobId
    ensures jobs == others && ids == otherIds && task == task'
  {
    hide MemberOk, ContextOk, CarriesExecution;
    IdFixesJob(jobs, ids, others, otherIds, 2);
    IdFixesJob(jobs, ids, others, otherIds, 1);
    IdFixesJob(jobs, ids, others, otherIds, 0);
  }

  /** And with the jobs the results of the planner and of the executor. */
  lemma ReviewerFixesResults(jobs: seq<Job>, others: seq<Job>, results: seq<Result>, otherResults: seq<Result>,
                             ids: seq<Text>, otherIds: seq<Text>,
                             task: Task, task': Task)
    requires ResultChainOk(jobs, results, ids, task)
    requires ResultChainOk(others, otherResults, otherIds, task')
    requires jobs[2].jobId == others[2].jobId
    ensures jobs == others && results[0] == otherResults[0] && results[1] == otherResults[1]
    ensures results[2].body.jobId == otherResults[2].body.jobId
  {
    ReviewerFixesJobs(jobs, others, ids, otherIds, task, task');
    assert ContextOk(jobs[0], results[0]) && ContextOk(others[0], otherResults[0]);
    assert results[0].digest == OfResult(results[0].body) && otherResults[0].digest == OfResult(otherResults[0].body);
    assert ContextOk(jobs[2], results[2]) && ContextOk(others[2], otherResults[2]);
  }

  /** Whatever is accepted with all its results is accepted as a prefix when some of them are gone. */
  lemma ChainHasPrefix(jobs: seq<Job>, results: seq<Result>, ids: seq<Text>, task: Task)
    requires ResultChainOk(jobs, results, ids, task) || TerminalChainOk(jobs, results, ids, task)
    ensures JobPrefixOk(jobs, ids, task)
    ensures forall i | 0 <= i < |jobs| :: ContextOk(jobs[i], results[i])
  {
    hide JobPrefixOk, ContextOk;
    if TerminalChainOk(jobs, results, ids, task) {
      TerminalHasPrefix(jobs, results, ids, task);
    } else {
      CompleteHasPrefix(jobs, ids, task);
    }
  }

  lemma CompleteHasPrefix(jobs: seq<Job>, ids: seq<Text>, task: Task)
    requires JobChainOk(jobs, ids, task)
    ensures JobPrefixOk(jobs, ids, task)
  {
    hide JobOk, ContextOk, CarriesExecution;
    forall i | 0 <= i < 3 ensures JobOk(jobs[i], ids[i]) && jobs[i].body.role == ROLES[i] && SameTask(jobs[i], jobs[0]) {
      assert MemberOk(jobs, ids, i);
    }
  }

  lemma TerminalHasPrefix(jobs: seq<Job>, results: seq<Result>, ids: seq<Text>, task: Task)
    requires TerminalChainOk(jobs, results, ids, task)
    ensures JobPrefixOk(jobs, ids, task)
    ensures forall i | 0 <= i < |jobs| :: ContextOk(jobs[i], results[i])
  {
    hide JobOk, ContextOk, CarriesExecution, IsTerminal, Unique;
    forall i | 0 <= i < |ids|
      ensures JobOk(jobs[i], ids[i]) && jobs[i].body.role == ROLES[i] && SameTask(jobs[i], jobs[0])
      ensures ContextOk(jobs[i], results[i])
    {
      assert RecordOk(jobs, results, ids, i);
    }
  }
}
