/**
 One step of the central execution broker: it publishes the next digest-bound job, waits for its
 result, and ends in an accepted chain, a failed or rejected prefix, or a prefix cut off by size.
 */
module CentralBroker {
  import opened Options
  import opened ArtifactManifest
  import opened CentralProtocol
  import opened Provenance

  /**
   What the broker finds: the results of the agent, the bundles with the files they really hold, the
   jobs that have a barrier, whether the jobs root is over its limit as it stands, the jobs that storage
   admission would refuse or whose inputs cannot be fetched, and whether a job's canonical text keeps
   within the size that the agent reads.
   */
  datatype Spool = Spool(
    results: map<Text, Result>, bundles: map<Text, seq<File>>,
    barred: set<Text>, overfull: bool, unadmitted: set<Text>, unfetched: set<Text>, fits: JobBody -> bool)

  datatype Progress =
    | Pending
    | Refused
    | Done(succeeded: bool, provenance: Option<Provenance>)

  // ----- the three jobs

  function JobOf(body: JobBody): Job
  {
    Job(OfJob(body), body)
  }

  function PlannerJob(id: Identity): Job
  {
    JobOf(JobBody(Planner, id, map[], None, None))
  }

  function PlanDependencies(planner: Result): map<Dependency, Text>
    requires planner.body.detail.PlanDetail?
  {
    map[PlannerJobId := planner.body.jobId, PlanDigest := planner.body.detail.planDigest,
        PlannerResultDigest := planner.digest]
  }

  function ExecutorJob(id: Identity, planner: Result): Job
    requires planner.body.detail.PlanDetail?
  {
    JobOf(JobBody(Executor, id, PlanDependencies(planner), Some(planner.body.detail.plan), None))
  }

  function ReviewDependencies(planner: Result, executor: Result): map<Dependency, Text>
    requires planner.body.detail.PlanDetail? && executor.body.detail.ExecutionDetail?
  {
    map[PlannerJobId := planner.body.jobId, PlanDigest := planner.body.detail.planDigest,
        PlannerResultDigest := planner.digest,
        ExecutorJobId := executor.body.jobId, ExecutorResultDigest := executor.digest,
        ArtifactManifestDigest := executor.body.detail.manifestDigest,
        ArtifactBundleDigest := executor.body.detail.bundleDigest]
  }

  function ReviewerJob(id: Identity, planner: Result, executor: Result): Job
    requires planner.body.detail.PlanDetail? && executor.body.detail.ExecutionDetail?
  {
    JobOf(JobBody(Reviewer, id, ReviewDependencies(planner, executor), Some(planner.body.detail.plan), Some(executor)))
  }

  // ----- publication and results

  datatype Ensured = Published | OverBudget | NotPublished

  /** A job that is there needs no room and no download; a barrier counts for both. */
  predicate Refuses(jobs: map<Text, Job>, spool: Spool, j: Text)
  {
    j in spool.barred || if j in jobs then spool.overfull else j in spool.unadmitted || j in spool.unfetched
  }

  function Publication(jobs: map<Text, Job>, spool: Spool, job: Job): Ensured
  {
    if !IsDigest(job.body.identity.specification) then NotPublished
    else if !spool.fits(job.body) then OverBudget
    else if !JobOk(job, job.jobId) || Refuses(jobs, spool, job.jobId) then NotPublished
    else if job.jobId in jobs && jobs[job.jobId] != job then NotPublished
    else Published
  }

  predicate Answers(r: Result, job: Job)
  {
    r.body.jobId == job.jobId && r.body.role == job.body.role && ResultOk(r, job.body.role)
  }

  predicate BundleOk(spool: Spool, executor: Result)
    requires executor.body.detail.ExecutionDetail?
  {
    var d := executor.body.detail;
    d.bundleDigest in spool.bundles && spool.bundles[d.bundleDigest] == d.manifest.files
  }

  // ----- the step as a function of what it finds

  /** The step's report, and the job ledger that it leaves. */
  datatype Stepped = Stepped(progress: Progress, jobs: map<Text, Job>)

  function Terminal(jobs: seq<Job>, results: seq<Result>): Progress
    requires jobs != [] && results != []
  {
    var last := results[|results| - 1];
    Done(false, Some(TerminalOf(jobs, results, last.body.role, StatusOf(last))))
  }

  function CutOff(jobs: seq<Job>, results: seq<Result>): Progress
    requires 1 <= |jobs| <= 2
  {
    Done(false, Some(TerminalOf(jobs, results, ROLES[|jobs|], BudgetError)))
  }

  function AcceptedOf(id: Identity, planner: Result, executor: Result, reviewer: Result): Provenance
    requires planner.body.detail.PlanDetail? && executor.body.detail.ExecutionDetail?
  {
    AcceptedWork(
      Planning.Central, id.specification, id.inputManifest, ROLES,
      [planner.body.jobId, executor.body.jobId, reviewer.body.jobId],
      ReviewDependencies(planner, executor), reviewer.body.jobId, reviewer.digest, true,
      executor.body.detail.manifest, executor.body.detail.locator)
  }

  function StepOf(jobs: map<Text, Job>, spool: Spool, id: Identity): Stepped
  {
    var job := PlannerJob(id);
    match Publication(jobs, spool, job)
    case OverBudget => Stepped(Done(false, None), jobs)
    case NotPublished => Stepped(Refused, jobs)
    case Published => Planned(jobs[job.jobId := job], spool, id, job)
  }

  function Planned(jobs: map<Text, Job>, spool: Spool, id: Identity, planner: Job): Stepped
    requires planner.body.role == Planner
  {
    if planner.jobId !in spool.results then Stepped(Pending, jobs)
    else if !Answers(spool.results[planner.jobId], planner) then Stepped(Refused, jobs)
    else
      var result := spool.results[planner.jobId];
      if !Succeeded(result) then Stepped(Terminal([planner], [result]), jobs)
      else
        var job := ExecutorJob(id, result);
        match Publication(jobs, spool, job)
        case OverBudget => Stepped(CutOff([planner], [result]), jobs)
        case NotPublished => Stepped(Refused, jobs)
        case Published => Executed(jobs[job.jobId := job], spool, id, planner, result, job)
  }

  function Executed(
      jobs: map<Text, Job>, spool: Spool, id: Identity, planner: Job, plan: Result, executor: Job): Stepped
    requires plan.body.detail.PlanDetail? && executor.body.role == Executor
  {
    if executor.jobId !in spool.results then Stepped(Pending, jobs)
    else if !Answers(spool.results[executor.jobId], executor) then Stepped(Refused, jobs)
    else
      var result := spool.results[executor.jobId];
      if !Succeeded(result) then Stepped(Terminal([planner, executor], [plan, result]), jobs)
      else if !BundleOk(spool, result) || result.body.detail.evidence != plan.body.detail.plan.criteria then
        Stepped(Refused, jobs)
      else
        var job := ReviewerJob(id, plan, result);
        match Publication(jobs, spool, job)
        case OverBudget => Stepped(CutOff([planner, executor], [plan, result]), jobs)
        case NotPublished => Stepped(Refused, jobs)
        case Published =>
          Stepped(Reviewed(spool, id, [planner, executor, job], [plan, result]), jobs[job.jobId := job])
  }

  function Reviewed(spool: Spool, id: Identity, jobs: seq<Job>, results: seq<Result>): Progress
    requires |jobs| == 3 && jobs[2].body.role == Reviewer
    requires |results| == 2 && results[0].body.detail.PlanDetail? && results[1].body.detail.ExecutionDetail?
  {
    if jobs[2].jobId !in spool.results then Pending
    else if !Answers(spool.results[jobs[2].jobId], jobs[2]) then Refused
    else
      var result := spool.results[jobs[2].jobId];
      if !Succeeded(result) then Terminal(jobs, results + [result])
      else if !Covers(result, results[0], results[1]) then Refused
      else if !result.body.detail.accepted then Terminal(jobs, results + [result])
      else Done(true, Some(AcceptedOf(id, results[0], results[1], result)))
  }

  predicate Covers(review: Result, plan: Result, execution: Result)
    requires review.body.detail.ReviewDetail?
    requires plan.body.detail.PlanDetail? && execution.body.detail.ExecutionDetail?
  {
    && review.body.detail.decisions.Keys == plan.body.detail.plan.criteria
    && review.body.detail.dependencyDigests == DigestsOf(ReviewDependencies(plan, execution))
  }

  // ----- what the records at each stage are

  predicate PlanStage(id: Identity, planner: Job, plan: Result)
  {
    planner == PlannerJob(id) && JobOk(planner, planner.jobId) && Answers(plan, planner)
  }

  predicate ExecutionStage(id: Identity, planner: Job, plan: Result, executor: Job, execution: Result)
  {
    && PlanStage(id, planner, plan) && plan.body.detail.PlanDetail?
    && executor == ExecutorJob(id, plan) && JobOk(executor, executor.jobId) && Answers(execution, executor)
  }

  predicate CompleteExecution(id: Identity, planner: Job, plan: Result, executor: Job, execution: Result)
  {
    && ExecutionStage(id, planner, plan, executor, execution)
    && execution.body.detail.ExecutionDetail? && execution.body.detail.evidence == plan.body.detail.plan.criteria
  }

  predicate ReviewStage(id: Identity, jobs: seq<Job>, results: seq<Result>)
  {
    && |jobs| == |results| == 3
    && CompleteExecution(id, jobs[0], results[0], jobs[1], results[1])
    && jobs[2] == ReviewerJob(id, results[0], results[1]) && JobOk(jobs[2], jobs[2].jobId)
    && Answers(results[2], jobs[2])
    && (Succeeded(results[2]) ==> Covers(results[2], results[0], results[1]))
  }

  lemma PlannerInContext(id: Identity, planner: Job, plan: Result)
    requires PlanStage(id, planner, plan)
    ensures ContextOk(planner, plan)
    ensures Succeeded(plan) <==> plan.body.detail.PlanDetail?
    ensures Succeeded(plan) ==>
      PlanOk(plan.body.detail.plan) && plan.body.detail.planDigest == OfPlan(plan.body.detail.plan)
  {
  }

  lemma ExecutorInContext(id: Identity, planner: Job, plan: Result, executor: Job, execution: Result)
    requires ExecutionStage(id, planner, plan, executor, execution)
    requires Succeeded(execution) ==> CompleteExecution(id, planner, plan, executor, execution)
    ensures ContextOk(executor, execution) && ResultOk(execution, Executor)
  {
    PlannerInContext(id, planner, plan);
    hide JobOk, PlanOk, ValidManifest;
  }

  lemma ReviewerInContext(id: Identity, jobs: seq<Job>, results: seq<Result>)
    requires ReviewStage(id, jobs, results)
    ensures ContextOk(jobs[2], results[2])
  {
    PlannerInContext(id, jobs[0], results[0]);
    ExecutorInContext(id, jobs[0], results[0], jobs[1], results[1]);
    CarriesItsExecution(id, results[0], results[1]);
    hide JobOk, PlanOk, ValidManifest, ResultOk, CarriesExecution;
  }

  lemma CarriesItsExecution(id: Identity, plan: Result, execution: Result)
    requires plan.body.detail.PlanDetail? && execution.body.detail.ExecutionDetail?
    ensures var b := ReviewerJob(id, plan, execution).body;
      CarriesExecution(b, execution.body.jobId, execution) && Depends(b, ExecutorJobId, execution.body.jobId)
  {
  }

  // ----- every exit is a chain that the protocol accepts

  lemma {:induction false} FirstRecord(id: Identity, jobs: seq<Job>, results: seq<Result>)
    requires 1 <= |jobs| == |results| <= 3 && PlanStage(id, jobs[0], results[0])
    ensures RecordOk(jobs, results, IdsOf(jobs), 0) && jobs[0].body.identity == id
  {
    PlannerInContext(id, jobs[0], results[0]);
    hide ContextOk, JobOk;
  }

  lemma {:induction false} SecondRecord(id: Identity, jobs: seq<Job>, results: seq<Result>)
    requires 2 <= |jobs| == |results| <= 3 && ExecutionStage(id, jobs[0], results[0], jobs[1], results[1])
    requires Succeeded(results[1]) ==> CompleteExecution(id, jobs[0], results[0], jobs[1], results[1])
    ensures RecordOk(jobs, results, IdsOf(jobs), 1)
  {
    ExecutorInContext(id, jobs[0], results[0], jobs[1], results[1]);
    hide ContextOk, JobOk, ResultOk;
  }

  lemma {:induction false} ThirdRecord(id: Identity, jobs: seq<Job>, results: seq<Result>)
    requires ReviewStage(id, jobs, results)
    ensures RecordOk(jobs, results, IdsOf(jobs), 2)
  {
    ReviewerInContext(id, jobs, results);
    CarriesItsExecution(id, results[0], results[1]);
    hide ContextOk, JobOk, ResultOk, CarriesExecution, Covers;
  }

  lemma {:induction false} RolesDiffer(jobs: seq<Job>)
    requires |jobs| <= 3
    requires forall i | 0 <= i < |jobs| :: jobs[i].body.role == ROLES[i] && jobs[i].jobId == OfJob(jobs[i].body)
    ensures Unique(IdsOf(jobs))
  {
    forall i, j | 0 <= i < j < |jobs| ensures IdsOf(jobs)[i] != IdsOf(jobs)[j] {
      assert jobs[i].body.role != jobs[j].body.role;
    }
  }

  lemma {:induction false} PlannerExit(id: Identity, planner: Job, plan: Result)
    requires PlanStage(id, planner, plan) && !Succeeded(plan)
    ensures TerminalChainOk([planner], [plan], IdsOf([planner]), id.task)
  {
    FirstRecord(id, [planner], [plan]);
    hide RecordOk;
  }

  lemma {:induction false} ExecutorExit(id: Identity, planner: Job, plan: Result, executor: Job, execution: Result)
    requires ExecutionStage(id, planner, plan, executor, execution) && !Succeeded(execution)
    ensures TerminalChainOk([planner, executor], [plan, execution], IdsOf([planner, executor]), id.task)
  {
    var jobs, results := [planner, executor], [plan, execution];
    FirstRecord(id, jobs, results);
    SecondRecord(id, jobs, results);
    RolesDiffer(jobs);
    hide RecordOk, Unique, JobOk, ResultOk;
  }

  lemma {:induction false} ReviewerExit(id: Identity, jobs: seq<Job>, results: seq<Result>)
    requires ReviewStage(id, jobs, results) && (Succeeded(results[2]) ==> !results[2].body.detail.accepted)
    ensures TerminalChainOk(jobs, results, IdsOf(jobs), id.task)
  {
    FirstRecord(id, jobs, results);
    SecondRecord(id, jobs, results);
    ThirdRecord(id, jobs, results);
    RolesDiffer(jobs);
    hide RecordOk, Unique, JobOk, Covers;
  }

  lemma {:induction false} PlannerCutOff(id: Identity, planner: Job, plan: Result)
    requires PlanStage(id, planner, plan) && Succeeded(plan)
    ensures BudgetOk([planner], [plan])
  {
    PlannerInContext(id, planner, plan);
    hide ContextOk, JobOk;
  }

  lemma {:induction false} ExecutorCutOff(id: Identity, planner: Job, plan: Result, executor: Job, execution: Result)
    requires CompleteExecution(id, planner, plan, executor, execution)
    ensures BudgetOk([planner, executor], [plan, execution])
  {
    PlannerInContext(id, planner, plan);
    ExecutorInContext(id, planner, plan, executor, execution);
    hide ContextOk, JobOk, ResultOk;
  }

  /** The chain that an accepted work completes. */
  lemma {:induction false} AcceptedExit(id: Identity, jobs: seq<Job>, results: seq<Result>)
    requires ReviewStage(id, jobs, results) && Succeeded(results[2]) && results[2].body.detail.accepted
    ensures ResultChainOk(jobs, results, IdsOf(jobs), id.task)
  {
    FirstRecord(id, jobs, results);
    SecondRecord(id, jobs, results);
    ThirdRecord(id, jobs, results);
    PlannerInContext(id, jobs[0], results[0]);
    hide ContextOk, Covers, JobOk, CarriesExecution, PlanOk, ResultOk;
  }

  lemma {:induction false} AcceptedDigests(jobs: seq<Job>, results: seq<Result>, ids: seq<Text>, task: Task)
    requires ResultChainOk(jobs, results, ids, task)
    ensures results[0].body.detail.PlanDetail? && results[1].body.detail.ExecutionDetail?
    ensures forall i | 0 <= i < 3 :: IsDigest(results[i].body.jobId) && IsDigest(results[i].digest)
    ensures IsDigest(results[0].body.detail.planDigest)
    ensures ArtifactsOf(results[1]).Some? && ArtifactsOk(ArtifactsOf(results[1]).value)
    ensures IsDigest(results[1].body.detail.manifestDigest) && IsDigest(results[1].body.detail.bundleDigest)
  {
    forall i | 0 <= i < 3 ensures ResultOk(results[i], ROLES[i]) && IsDigest(results[i].body.jobId) {
      assert MemberOk(jobs, ids, i) && ContextOk(jobs[i], results[i]);
    }
    hide JobChainOk, ContextOk, MemberOk, ValidManifest, PlanOk;
    assert ResultOk(results[0], Planner) && ResultOk(results[1], Executor);
    ExecutorArtifacts(results[1]);
  }

  /** The provenance of an accepted chain is valid. */
  lemma {:induction false} AcceptedIsValid(id: Identity, jobs: seq<Job>, results: seq<Result>, ids: seq<Text>)
    requires ResultChainOk(jobs, results, ids, id.task) && jobs[0].body.identity == id
    requires results[0].body.detail.PlanDetail? && results[1].body.detail.ExecutionDetail?
    ensures ValidProvenance(AcceptedOf(id, results[0], results[1], results[2]))
  {
    AcceptedDigests(jobs, results, ids, id.task);
    OutcomeManifestFollows(results[1].body.detail.manifest);
    forall i | 0 <= i < 3
      ensures jobs[i].body.role == ROLES[i] && jobs[i].jobId == OfJob(jobs[i].body)
      ensures results[i].body.jobId == jobs[i].jobId
    {
      assert MemberOk(jobs, ids, i) && ContextOk(jobs[i], results[i]);
    }
    RolesDiffer(jobs);
    assert JobOk(jobs[0], ids[0]) by { assert MemberOk(jobs, ids, 0); }
    hide ResultChainOk, JobOk, MemberOk, ContextOk, ValidManifest, ValidOutcomeManifest, IsDigest;
    assert IdsOf(jobs) == [results[0].body.jobId, results[1].body.jobId, results[2].body.jobId];
  }

  // ----- the broker

  /** The named jobs, read back from the ledger and validated. */
  predicate Reads(jobs: map<Text, Job>, ids: seq<Text>, chain: seq<Job>)
  {
    |chain| == |ids| && forall i | 0 <= i < |ids| :: ids[i] in jobs && jobs[ids[i]] == chain[i] && JobOk(chain[i], ids[i])
  }

  predicate Holds(jobs: map<Text, Job>, ids: seq<Text>)
  {
    forall i | 0 <= i < |ids| :: ids[i] in jobs && JobOk(jobs[ids[i]], ids[i])
  }

  function ReportOf(chain: seq<Job>, results: seq<Result>, overBudget: bool): Progress
  {
    var p := BuildTerminal(chain, results, overBudget);
    if p.Some? then Done(false, p) else Refused
  }

  class Broker {
    var jobs: map<Text, Job>

    constructor (ledger: map<Text, Job>)
      ensures jobs == ledger
    {
      jobs := ledger;
    }

    method EnsureJob(spool: Spool, job: Job) returns (ensured: Ensured)
      requires job.jobId == OfJob(job.body)
      modifies this
      ensures ensured == Publication(old(jobs), spool, job)
      ensures jobs == if ensured.Published? then old(jobs)[job.jobId := job] else old(jobs)
      ensures forall i | i in old(jobs) :: i in jobs && jobs[i] == old(jobs)[i]
      ensures ensured.Published? <==>
        && JobOk(job, job.jobId) && spool.fits(job.body) && job.jobId !in spool.barred
        && (if job.jobId in old(jobs) then !spool.overfull
            else job.jobId !in spool.unadmitted && job.jobId !in spool.unfetched)
        && (job.jobId in old(jobs) ==> old(jobs)[job.jobId] == job)
    {
      if !IsDigest(job.body.identity.specification) { return NotPublished; }
      if !spool.fits(job.body) { return OverBudget; }
      if !JobOk(job, job.jobId) || job.jobId in spool.barred { return NotPublished; }
      if job.jobId in jobs {
        if spool.overfull || jobs[job.jobId] != job { return NotPublished; }
        assert jobs == jobs[job.jobId := job];
        return Published;
      }
      if job.jobId in spool.unadmitted || job.jobId in spool.unfetched { return NotPublished; }
      jobs := jobs[job.jobId := job];
      return Published;
    }

    /** Read the durable jobs back, validate the chain, and report it. */
    method TerminalProgress(ids: seq<Text>, results: seq<Result>, overBudget: bool) returns (progress: Progress)
      ensures forall chain | Reads(jobs, ids, chain) :: progress == ReportOf(chain, results, overBudget)
      ensures !Holds(jobs, ids) ==> progress == Refused
    {
      hide BuildTerminal, JobOk;
      var chain := [];
      for i := 0 to |ids|
        invariant |chain| == i
        invariant forall k | 0 <= k < i :: ids[k] in jobs && jobs[ids[k]] == chain[k] && JobOk(chain[k], ids[k])
      {
        if ids[i] !in jobs || !JobOk(jobs[ids[i]], ids[i]) { return Refused; }
        chain := chain + [jobs[ids[i]]];
      }
      forall other | Reads(jobs, ids, other) ensures other == chain {
      }
      return ReportOf(chain, results, overBudget);
    }

    /**
     One step.  Provenance is built from records that are read back and validated a second time; that
     no second check ever fails is what equality with `StepOf`, which has none, says.
     */
    method StepCentral(spool: Spool, id: Identity) returns (progress: Progress)
      modifies this
      ensures Stepped(progress, jobs) == StepOf(old(jobs), spool, id)
    {
      hide Planned, Publication, JobOk;
      var planner := PlannerJob(id);
      var ensured := EnsureJob(spool, planner);
      match ensured
      case OverBudget => return Done(false, None);
      case NotPublished => return Refused;
      case Published =>
        PublishedIsSound(old(jobs), spool, planner);
        progress := AwaitPlan(spool, id, planner);
    }

    method AwaitPlan(spool: Spool, id: Identity, planner: Job) returns (progress: Progress)
      requires planner == PlannerJob(id) && Reads(jobs, [planner.jobId], [planner])
      modifies this
      ensures Stepped(progress, jobs) == Planned(old(jobs), spool, id, planner)
    {
      hide Executed, Publication, JobOk, BuildTerminal, ResultOk, TerminalOf;
      if planner.jobId !in spool.results { return Pending; }
      var plan := spool.results[planner.jobId];
      if !Answers(plan, planner) { return Refused; }
      assert JobOk([planner][0], [planner.jobId][0]);
      PlannerAnswer(id, planner, plan);
      if !Succeeded(plan) {
        progress := TerminalProgress([planner.jobId], [plan], false);
        return;
      }
      var executor := ExecutorJob(id, plan);
      var ensured := EnsureJob(spool, executor);
      match ensured
      case OverBudget => progress := TerminalProgress([planner.jobId], [plan], true);
      case NotPublished => return Refused;
      case Published =>
        PublishedIsSound(old(jobs), spool, executor);
        progress := AwaitExecution(spool, id, planner, plan, executor);
    }

    method AwaitExecution(spool: Spool, id: Identity, planner: Job, plan: Result, executor: Job)
      returns (progress: Progress)
      requires PlanStage(id, planner, plan) && plan.body.detail.PlanDetail? && executor == ExecutorJob(id, plan)
      requires Reads(jobs, [planner.jobId, executor.jobId], [planner, executor])
      modifies this
      ensures Stepped(progress, jobs) == Executed(old(jobs), spool, id, planner, plan, executor)
    {
      hide Reviewed, Publication, JobOk, BuildTerminal, ResultOk, TerminalOf, BundleOk;
      if executor.jobId !in spool.results { return Pending; }
      var execution := spool.results[executor.jobId];
      if !Answers(execution, executor) { return Refused; }
      assert JobOk([planner, executor][1], [planner.jobId, executor.jobId][1]);
      ExecutorFailure(id, planner, plan, executor, execution);
      if !Succeeded(execution) {
        progress := TerminalProgress([planner.jobId, executor.jobId], [plan, execution], false);
        return;
      }
      if !BundleOk(spool, execution) || execution.body.detail.evidence != plan.body.detail.plan.criteria {
        return Refused;
      }
      ExecutorOverrun(id, planner, plan, executor, execution);
      var reviewer := ReviewerJob(id, plan, execution);
      var ensured := EnsureJob(spool, reviewer);
      match ensured
      case OverBudget => progress := TerminalProgress([planner.jobId, executor.jobId], [plan, execution], true);
      case NotPublished => return Refused;
      case Published =>
        PublishedIsSound(old(jobs), spool, reviewer);
        progress := AwaitReview(spool, id, [planner, executor, reviewer], [plan, execution]);
    }

    method AwaitReview(spool: Spool, id: Identity, chain: seq<Job>, results: seq<Result>) returns (progress: Progress)
      requires |chain| == 3 && |results| == 2 && CompleteExecution(id, chain[0], results[0], chain[1], results[1])
      requires chain[2] == ReviewerJob(id, results[0], results[1])
      requires Reads(jobs, [chain[0].jobId, chain[1].jobId, chain[2].jobId], chain)
      ensures progress == Reviewed(spool, id, chain, results)
    {
      hide JobOk, BuildTerminal, ResultOk, TerminalOf, Covers, AcceptedOf;
      var reviewer := chain[2];
      if reviewer.jobId !in spool.results { return Pending; }
      var review := spool.results[reviewer.jobId];
      if !Answers(review, reviewer) { return Refused; }
      assert IdsOf(chain) == [chain[0].jobId, chain[1].jobId, chain[2].jobId];
      assert JobOk(chain[2], IdsOf(chain)[2]);
      if Succeeded(review) { SaysMore(review, reviewer); }
      if Succeeded(review) && !Covers(review, results[0], results[1]) { return Refused; }
      ReviewerAnswer(id, chain, results + [review]);
      if !Succeeded(review) || !review.body.detail.accepted {
        progress := TerminalProgress(IdsOf(chain), results + [review], false);
        return;
      }
      return Done(true, Some(AcceptedOf(id, results[0], results[1], review)));
    }
  }

  lemma SaysMore(r: Result, job: Job)
    requires Answers(r, job) && Succeeded(r)
    ensures match job.body.role
      case Planner => r.body.detail.PlanDetail?
      case Executor => r.body.detail.ExecutionDetail?
      case Reviewer => r.body.detail.ReviewDetail?
  {
  }

  lemma PublishedIsSound(jobs: map<Text, Job>, spool: Spool, job: Job)
    requires Publication(jobs, spool, job).Published?
    ensures JobOk(job, job.jobId)
  {
  }

  /** The planner's answer, and how it is reported if the work ends with it. */
  lemma {:induction false} PlannerAnswer(id: Identity, planner: Job, plan: Result)
    requires PlanStage(id, planner, plan)
    ensures Succeeded(plan) ==> plan.body.detail.PlanDetail?
    ensures !Succeeded(plan) ==> ReportOf([planner], [plan], false) == Terminal([planner], [plan])
    ensures Succeeded(plan) ==> ReportOf([planner], [plan], true) == CutOff([planner], [plan])
  {
    PlannerInContext(id, planner, plan);
    if Succeeded(plan) {
      PlannerCutOff(id, planner, plan);
      BudgetIsValid([planner], [plan]);
    } else {
      PlannerExit(id, planner, plan);
      TerminalIsValid([planner], [plan], IdsOf([planner]), id.task);
    }
    hide BuildTerminal, TerminalOf, PlanStage, BudgetOk, TerminalChainOk;
  }

  lemma {:induction false} ExecutorFailure(id: Identity, planner: Job, plan: Result, executor: Job, execution: Result)
    requires ExecutionStage(id, planner, plan, executor, execution)
    ensures Succeeded(execution) ==> execution.body.detail.ExecutionDetail?
    ensures !Succeeded(execution) ==>
      ReportOf([planner, executor], [plan, execution], false) == Terminal([planner, executor], [plan, execution])
  {
    if !Succeeded(execution) {
      ExecutorExit(id, planner, plan, executor, execution);
      TerminalIsValid([planner, executor], [plan, execution], IdsOf([planner, executor]), id.task);
      hide BuildTerminal, TerminalOf, ExecutionStage, TerminalChainOk;
    }
  }

  lemma {:induction false} ExecutorOverrun(id: Identity, planner: Job, plan: Result, executor: Job, execution: Result)
    requires CompleteExecution(id, planner, plan, executor, execution)
    ensures ReportOf([planner, executor], [plan, execution], true) == CutOff([planner, executor], [plan, execution])
  {
    ExecutorCutOff(id, planner, plan, executor, execution);
    BudgetIsValid([planner, executor], [plan, execution]);
    hide BuildTerminal, TerminalOf, CompleteExecution, BudgetOk;
  }

  lemma {:induction false} ReviewerAnswer(id: Identity, jobs: seq<Job>, results: seq<Result>)
    requires ReviewStage(id, jobs, results)
    ensures Succeeded(results[2]) ==> results[2].body.detail.ReviewDetail?
    ensures (Succeeded(results[2]) ==> !results[2].body.detail.accepted) ==>
      ReportOf(jobs, results, false) == Terminal(jobs, results)
  {
    if Succeeded(results[2]) ==> !results[2].body.detail.accepted {
      ReviewerExit(id, jobs, results);
      TerminalIsValid(jobs, results, IdsOf(jobs), id.task);
      hide BuildTerminal, TerminalOf, TerminalChainOk, Covers, JobOk;
    }
  }

  // ----- what an exit tells

  /** The chain's jobs are in the ledger and its results in the spool. */
  predicate Recorded(chain: seq<Job>, results: seq<Result>, jobs: map<Text, Job>, spool: Spool)
  {
    |chain| == |results| && forall i | 0 <= i < |chain| ::
      && chain[i].jobId in jobs && jobs[chain[i].jobId] == chain[i]
      && chain[i].jobId in spool.results && spool.results[chain[i].jobId] == results[i]
  }

  /** The exit reports exactly this chain, which the protocol's validators accept. */
  predicate Reports(progress: Progress, chain: seq<Job>, results: seq<Result>, id: Identity)
  {
    && progress.Done? && progress.provenance.Some?
    && chain != [] && chain[0].body.identity == id
    && if progress.succeeded then
         && ResultChainOk(chain, results, IdsOf(chain), id.task)
         && results[1].body.detail.ExecutionDetail?
         && progress.provenance.value == AcceptedOf(id, results[0], results[1], results[2])
       else
         || (TerminalChainOk(chain, results, IdsOf(chain), id.task) && progress == ReportOf(chain, results, false))
         || (BudgetOk(chain, results) && progress == ReportOf(chain, results, true))
  }

  ghost predicate Backed(s: Stepped, spool: Spool, id: Identity)
  {
    s.progress.Done? ==>
      if s.progress.provenance.None? then !s.progress.succeeded
      else exists chain, results :: Recorded(chain, results, s.jobs, spool) && Reports(s.progress, chain, results, id)
  }

  predicate Fit(progress: Progress, item: Item)
  {
    progress.Done? ==> Completes(item, progress.succeeded, progress.provenance)
  }

  predicate PreparedFor(id: Identity, item: Item)
  {
    id.task == item.task && id.specification == item.specification && item.mode == Planning.Central
  }

  lemma {:induction false} AcceptanceReports(id: Identity, chain: seq<Job>, results: seq<Result>)
    requires ReviewStage(id, chain, results) && Succeeded(results[2]) && results[2].body.detail.accepted
    ensures Reports(Done(true, Some(AcceptedOf(id, results[0], results[1], results[2]))), chain, results, id)
  {
    AcceptedExit(id, chain, results);
    hide Answers, Covers, JobOk, TerminalChainOk, ResultChainOk, BudgetOk, AcceptedOf;
  }

  lemma {:induction false} RejectionReports(id: Identity, chain: seq<Job>, results: seq<Result>)
    requires ReviewStage(id, chain, results) && (Succeeded(results[2]) ==> !results[2].body.detail.accepted)
    ensures Reports(Terminal(chain, results), chain, results, id)
  {
    assert chain[0].body.identity == id;
    hide Answers, Covers, JobOk, CompleteExecution, ReviewerJob, ReportOf, AcceptedOf, TerminalOf;
    ReviewerAnswer(id, chain, results);
    ReviewerExit(id, chain, results);
    hide ReviewStage, TerminalChainOk, Reports;
    FailureReports(id, chain, results);
  }

  lemma {:induction false} ReviewedExit(
      jobs: map<Text, Job>, spool: Spool, id: Identity, chain: seq<Job>, results: seq<Result>)
    requires |chain| == 3 && |results| == 2 && CompleteExecution(id, chain[0], results[0], chain[1], results[1])
    requires chain[2] == ReviewerJob(id, results[0], results[1]) && JobOk(chain[2], chain[2].jobId)
    requires Recorded(chain[..2], results, jobs, spool) && chain[2].jobId in jobs && jobs[chain[2].jobId] == chain[2]
    ensures Backed(Stepped(Reviewed(spool, id, chain, results), jobs), spool, id)
  {
    var progress := Reviewed(spool, id, chain, results);
    if progress.Done? {
      hide Answers, Covers, JobOk, CompleteExecution, ReviewerJob, Reports, Terminal, AcceptedOf, Recorded, Backed;
      var all := results + [spool.results[chain[2].jobId]];
      RecordedThird(chain, results, jobs, spool);
      assert ReviewStage(id, chain, all);
      hide ReviewStage;
      if progress.succeeded { AcceptanceReports(id, chain, all); } else { RejectionReports(id, chain, all); }
      BackedBy(Stepped(progress, jobs), spool, id, chain, all);
    }
  }

  lemma BackedBy(s: Stepped, spool: Spool, id: Identity, chain: seq<Job>, results: seq<Result>)
    requires Recorded(chain, results, s.jobs, spool) && Reports(s.progress, chain, results, id)
    ensures Backed(s, spool, id)
  {
    hide Recorded, ResultChainOk, TerminalChainOk, BudgetOk, ReportOf, AcceptedOf;
  }

  lemma {:induction false} RecordedThird(chain: seq<Job>, results: seq<Result>, jobs: map<Text, Job>, spool: Spool)
    requires |chain| == 3 && Recorded(chain[..2], results, jobs, spool)
    requires chain[2].jobId in jobs && jobs[chain[2].jobId] == chain[2] && chain[2].jobId in spool.results
    ensures Recorded(chain, results + [spool.results[chain[2].jobId]], jobs, spool)
  {
    assert forall i | 0 <= i < 2 :: chain[..2][i] == chain[i];
  }

  lemma {:induction false} CutOffReports(id: Identity, chain: seq<Job>, results: seq<Result>)
    requires BudgetOk(chain, results) && ReportOf(chain, results, true) == CutOff(chain, results)
    requires chain[0].body.identity == id
    ensures Reports(CutOff(chain, results), chain, results, id)
  {
    hide SuccessfulOk, TerminalChainOk, ReportOf, TerminalOf;
  }

  lemma {:induction false} FailureReports(id: Identity, chain: seq<Job>, results: seq<Result>)
    requires chain != [] && results != [] && TerminalChainOk(chain, results, IdsOf(chain), id.task)
    requires ReportOf(chain, results, false) == Terminal(chain, results)
    requires chain[0].body.identity == id
    ensures Reports(Terminal(chain, results), chain, results, id)
  {
    hide BudgetOk, TerminalChainOk, ReportOf, TerminalOf;
  }

  lemma {:induction false} ExecutedExit(jobs: map<Text, Job>, spool: Spool, id: Identity, chain: seq<Job>, plan: Result)
    requires |chain| == 2 && PlanStage(id, chain[0], plan) && plan.body.detail.PlanDetail?
    requires chain[1] == ExecutorJob(id, plan) && JobOk(chain[1], chain[1].jobId)
    requires Recorded(chain[..1], [plan], jobs, spool) && chain[1].jobId in jobs && jobs[chain[1].jobId] == chain[1]
    ensures Backed(Executed(jobs, spool, id, chain[0], plan, chain[1]), spool, id)
  {
    var s := Executed(jobs, spool, id, chain[0], plan, chain[1]);
    if s.progress.Done? {
      var execution := spool.results[chain[1].jobId];
      assert chain == [chain[0], chain[1]] && chain[..1][0] == chain[0];
      assert Recorded(chain, [plan, execution], jobs, spool);
      hide JobOk, ResultOk, Recorded, Publication, BundleOk, Backed;
      if !Succeeded(execution) {
        ExecutionFails(jobs, spool, id, chain, plan, execution);
      } else if s.progress.Done? {
        ExecutionGoesOn(jobs, spool, id, chain, plan, execution);
      }
    }
  }

  lemma {:induction false} ExecutionFails(
      jobs: map<Text, Job>, spool: Spool, id: Identity, chain: seq<Job>, plan: Result, execution: Result)
    requires |chain| == 2 && ExecutionStage(id, chain[0], plan, chain[1], execution) && !Succeeded(execution)
    requires Recorded(chain, [plan, execution], jobs, spool)
    ensures Backed(Executed(jobs, spool, id, chain[0], plan, chain[1]), spool, id)
  {
    assert chain == [chain[0], chain[1]] && chain[0].body.identity == id;
    assert chain[1].jobId in spool.results && spool.results[chain[1].jobId] == [plan, execution][1];
    ExecutorFailure(id, chain[0], plan, chain[1], execution);
    ExecutorExit(id, chain[0], plan, chain[1], execution);
    hide JobOk, Terminal, TerminalChainOk, ReportOf, Reports, Recorded, Publication, BundleOk;
    FailureReports(id, chain, [plan, execution]);
  }

  lemma {:induction false} ExecutionGoesOn(
      jobs: map<Text, Job>, spool: Spool, id: Identity, chain: seq<Job>, plan: Result, execution: Result)
    requires |chain| == 2 && CompleteExecution(id, chain[0], plan, chain[1], execution)
    requires Recorded(chain, [plan, execution], jobs, spool)
    ensures Backed(Executed(jobs, spool, id, chain[0], plan, chain[1]), spool, id)
  {
    var s := Executed(jobs, spool, id, chain[0], plan, chain[1]);
    var reviewer := ReviewerJob(id, plan, execution);
    var results := [plan, execution];
    assert chain == [chain[0], chain[1]] && chain[0].body.identity == id;
    assert chain[1].jobId in spool.results && spool.results[chain[1].jobId] == results[1];
    match Publication(jobs, spool, reviewer)
    case OverBudget =>
      ExecutorOverrun(id, chain[0], plan, chain[1], execution);
      ExecutorCutOff(id, chain[0], plan, chain[1], execution);
      hide CompleteExecution, Recorded, Reports, CutOff, Publication, BundleOk, ReportOf, BudgetOk;
      CutOffReports(id, chain, results);
    case NotPublished =>
    case Published =>
      hide JobOk, Publication, Recorded, Reviewed, Backed, CompleteExecution, Answers, BundleOk;
      ReviewPublished(jobs, spool, id, chain, results, reviewer);
  }

  lemma {:induction false} ReviewPublished(
      jobs: map<Text, Job>, spool: Spool, id: Identity, chain: seq<Job>, results: seq<Result>, reviewer: Job)
    requires |chain| == 2 && |results| == 2 && CompleteExecution(id, chain[0], results[0], chain[1], results[1])
    requires Recorded(chain, results, jobs, spool)
    requires reviewer == ReviewerJob(id, results[0], results[1]) && Publication(jobs, spool, reviewer).Published?
    ensures var after := jobs[reviewer.jobId := reviewer];
      Backed(Stepped(Reviewed(spool, id, [chain[0], chain[1], reviewer], results), after), spool, id)
  {
    PublishedIsSound(jobs, spool, reviewer);
    assert [chain[0], chain[1], reviewer][..2] == chain;
    KeepsRecorded(chain, results, jobs, spool, reviewer);
    hide Answers, JobOk, Publication, Recorded, ReviewerJob, Reviewed, Backed, CompleteExecution;
    ReviewedExit(jobs[reviewer.jobId := reviewer], spool, id, [chain[0], chain[1], reviewer], results);
  }

  lemma {:induction false} KeepsRecorded(
      chain: seq<Job>, results: seq<Result>, jobs: map<Text, Job>, spool: Spool, job: Job)
    requires Recorded(chain, results, jobs, spool)
    requires job.jobId in jobs ==> jobs[job.jobId] == job
    ensures Recorded(chain, results, jobs[job.jobId := job], spool)
  {
  }

  lemma {:induction false} PlannedExit(jobs: map<Text, Job>, spool: Spool, id: Identity, planner: Job)
    requires planner == PlannerJob(id) && JobOk(planner, planner.jobId)
    requires planner.jobId in jobs && jobs[planner.jobId] == planner
    ensures Backed(Planned(jobs, spool, id, planner), spool, id)
  {
    var s := Planned(jobs, spool, id, planner);
    if s.progress.Done? {
      var plan := spool.results[planner.jobId];
      PlannerAnswer(id, planner, plan);
      assert Recorded([planner], [plan], jobs, spool);
      if !Succeeded(plan) {
        PlannerExit(id, planner, plan);
        hide Answers, JobOk, Terminal, TerminalChainOk, ReportOf, Reports, Recorded;
        FailureReports(id, [planner], [plan]);
      } else {
        PlanGoesOn(jobs, spool, id, planner, plan);
      }
    }
  }

  lemma {:induction false} PlanGoesOn(jobs: map<Text, Job>, spool: Spool, id: Identity, planner: Job, plan: Result)
    requires PlanStage(id, planner, plan) && Succeeded(plan)
    requires Recorded([planner], [plan], jobs, spool)
    ensures Backed(Planned(jobs, spool, id, planner), spool, id)
  {
    PlannerAnswer(id, planner, plan);
    assert [planner][0].jobId in spool.results && spool.results[planner.jobId] == [plan][0];
    var executor := ExecutorJob(id, plan);
    match Publication(jobs, spool, executor)
    case OverBudget =>
      PlannerCutOff(id, planner, plan);
      hide JobOk, Recorded, Reports, CutOff, Publication, ReportOf, BudgetOk;
      CutOffReports(id, [planner], [plan]);
    case NotPublished =>
    case Published =>
      PublishedIsSound(jobs, spool, executor);
      KeepsRecorded([planner], [plan], jobs, spool, executor);
      assert [planner, executor][..1] == [planner];
      hide JobOk, Publication, Recorded, Executed, Backed;
      ExecutedExit(jobs[executor.jobId := executor], spool, id, [planner, executor], plan);
  }

  /**
   Whatever exit with provenance a step takes, the ledger and the spool hold the chain that it
   reports, and the validators that retention will apply to that chain accept it.
   */
  lemma {:induction false} EveryExitIsBacked(jobs: map<Text, Job>, spool: Spool, id: Identity)
    ensures Backed(StepOf(jobs, spool, id), spool, id)
  {
    var planner := PlannerJob(id);
    if Publication(jobs, spool, planner).Published? {
      PublishedIsSound(jobs, spool, planner);
      hide JobOk, Publication, Planned, Backed;
      PlannedExit(jobs[planner.jobId := planner], spool, id, planner);
    }
  }

  lemma {:induction false} ReportCompletes(
      progress: Progress, chain: seq<Job>, results: seq<Result>, id: Identity, item: Item)
    requires Reports(progress, chain, results, id) && PreparedFor(id, item)
    ensures Fit(progress, item)
  {
    if progress.succeeded {
      AcceptedIsValid(id, chain, results, IdsOf(chain));
    }
    hide ValidProvenance, TerminalChainOk, ResultChainOk, BudgetOk;
  }

  /** And the approval store takes the outcome for the item that the work was prepared for. */
  lemma {:induction false} EveryExitCompletes(jobs: map<Text, Job>, spool: Spool, id: Identity, item: Item)
    requires PreparedFor(id, item)
    ensures Fit(StepOf(jobs, spool, id).progress, item)
  {
    hide StepOf, Recorded, Reports;
    EveryExitIsBacked(jobs, spool, id);
    var s := StepOf(jobs, spool, id);
    if s.progress.Done? && s.progress.provenance.Some? {
      var chain, results :| Recorded(chain, results, s.jobs, spool) && Reports(s.progress, chain, results, id);
      ReportCompletes(s.progress, chain, results, id, item);
    }
  }

  /**
   From the step to the tombstones: the stored outcome of any exit with provenance decodes as a
   record that the planner accepts, and once it is old enough its jobs are planned for deletion by
   tombstones that their decoder reads back unchanged.
   */
  lemma {:induction false} EveryExitIsCollected(
      jobs: map<Text, Job>, spool: Spool, id: Identity, row: Row, scratchTtl: nat, evidenceTtl: nat, now: int)
    requires PreparedFor(id, row.item) && Genuine(row.item.task) && Readable(row)
    requires StepOf(jobs, spool, id).progress == Done(row.succeeded, row.provenance) && row.provenance.Some?
    requires row.created + scratchTtl <= now
    ensures RecordOf(row, scratchTtl, evidenceTtl).Some?
    ensures var r := RecordOf(row, scratchTtl, evidenceTtl).value;
      && Planning.RecordOk(r) && Planning.PlansOf(r, now) != []
      && Planning.PlansOf(r, now)[0].Jobs() == row.provenance.value.jobIds
      && forall t | t in Planning.PlansOf(r, now) :: Planning.Decode(Planning.Encode(t)) == Some(t)
  {
    hide StepOf, Completes;
    EveryExitCompletes(jobs, spool, id, row.item);
    assert Stored(row);
    StoredRecordDecodes(row, scratchTtl, evidenceTtl);
    PlannedFromStored(row, scratchTtl, evidenceTtl, now);
    hide RecordOf, Planning.RecordOk, Planning.PlansOf, Planning.Decode, Planning.Encode;
  }

  // ----- and the other way round: a recorded chain is what the step ends with

  /** The jobs of a chain are the ones that the broker writes for its results. */
  lemma {:induction false} ChainIsTheBrokers(id: Identity, chain: seq<Job>, results: seq<Result>, ids: seq<Text>)
    requires ResultChainOk(chain, results, ids, id.task) && chain[0].body.identity == id
    ensures CompleteExecution(id, chain[0], results[0], chain[1], results[1])
    ensures ReviewStage(id, chain, results)
  {
    FirstIsTheBrokers(id, chain, results, ids);
    SecondIsTheBrokers(id, chain, results, ids);
    ThirdIsTheBrokers(id, chain, results, ids);
    hide ResultChainOk, JobOk, Answers, Covers, PlannerJob, ExecutorJob, ReviewerJob;
  }

  lemma {:induction false} FirstIsTheBrokers(id: Identity, chain: seq<Job>, results: seq<Result>, ids: seq<Text>)
    requires ResultChainOk(chain, results, ids, id.task) && chain[0].body.identity == id
    ensures PlanStage(id, chain[0], results[0]) && results[0].body.detail.PlanDetail?
  {
    assert MemberOk(chain, ids, 0) && ContextOk(chain[0], results[0]);
    hide ResultOk, PlanOk;
  }

  lemma {:induction false} SecondIsTheBrokers(id: Identity, chain: seq<Job>, results: seq<Result>, ids: seq<Text>)
    requires ResultChainOk(chain, results, ids, id.task) && chain[0].body.identity == id
    ensures results[0].body.detail.PlanDetail? && results[1].body.detail.ExecutionDetail?
    ensures chain[1] == ExecutorJob(id, results[0]) && JobOk(chain[1], chain[1].jobId) && Answers(results[1], chain[1])
    ensures results[1].body.detail.evidence == results[0].body.detail.plan.criteria
  {
    assert MemberOk(chain, ids, 0) && ContextOk(chain[0], results[0]);
    assert MemberOk(chain, ids, 1) && ContextOk(chain[1], results[1]);
    hide PlanOk, ValidManifest;
  }

  lemma {:induction false} ThirdIsTheBrokers(id: Identity, chain: seq<Job>, results: seq<Result>, ids: seq<Text>)
    requires ResultChainOk(chain, results, ids, id.task) && chain[0].body.identity == id
    requires results[0].body.detail.PlanDetail? && results[1].body.detail.ExecutionDetail?
    ensures chain[2] == ReviewerJob(id, results[0], results[1]) && JobOk(chain[2], chain[2].jobId)
    ensures Answers(results[2], chain[2]) && Covers(results[2], results[0], results[1])
  {
    assert ContextOk(chain[0], results[0]) && ContextOk(chain[1], results[1]);
    assert MemberOk(chain, ids, 1);
    assert MemberOk(chain, ids, 2) && ContextOk(chain[2], results[2]);
    hide PlanOk, ValidManifest;
  }

  /** A complete chain whose jobs nothing keeps from being published, with its results and its bundle. */
  predicate EndsWell(jobs: map<Text, Job>, spool: Spool, id: Identity, chain: seq<Job>, results: seq<Result>)
  {
    && ResultChainOk(chain, results, IdsOf(chain), id.task) && chain[0].body.identity == id
    && (forall i | 0 <= i < 3 ::
          && Publication(jobs, spool, chain[i]).Published?
          && chain[i].jobId in spool.results && spool.results[chain[i].jobId] == results[i])
    && results[1].body.detail.ExecutionDetail? && BundleOk(spool, results[1])
  }

  /** Publishing one job does not change what happens to another. */
  lemma PublicationStands(jobs: map<Text, Job>, spool: Spool, first: Job, job: Job)
    requires first.jobId == OfJob(first.body) && job.jobId == OfJob(job.body) && first.body.role != job.body.role
    ensures Publication(jobs[first.jobId := first], spool, job) == Publication(jobs, spool, job)
  {
    hide JobOk;
  }

  lemma {:induction false} ChainEndsWell(
      jobs: map<Text, Job>, spool: Spool, id: Identity, chain: seq<Job>, results: seq<Result>)
    requires EndsWell(jobs, spool, id, chain, results)
    ensures StepOf(jobs, spool, id) ==
      Stepped(Done(true, Some(AcceptedOf(id, results[0], results[1], results[2]))),
              jobs[chain[0].jobId := chain[0]][chain[1].jobId := chain[1]][chain[2].jobId := chain[2]])
  {
    ChainIsTheBrokers(id, chain, results, IdsOf(chain));
    var after := jobs[chain[0].jobId := chain[0]];
    PublicationStands(jobs, spool, chain[0], chain[1]);
    PublicationStands(jobs, spool, chain[0], chain[2]);
    PublicationStands(after, spool, chain[1], chain[2]);
    hide Publication, ResultChainOk, Answers, JobOk, ExecutorJob;
    hide ReviewerJob, AcceptedOf, Terminal, CutOff, Covers, BundleOk;
    assert StepOf(jobs, spool, id) == Planned(after, spool, id, chain[0]);
    assert Planned(after, spool, id, chain[0]) ==
      Executed(after[chain[1].jobId := chain[1]], spool, id, chain[0], results[0], chain[1]);
    hide StepOf, Planned;
    assert chain == [chain[0], chain[1], chain[2]] && results[..2] == [results[0], results[1]];
  }

  predicate Accepts(p: Progress)
  {
    p.Done? && p.succeeded
  }

  lemma {:induction false} AcceptedUnfolds(jobs: map<Text, Job>, spool: Spool, id: Identity)
    returns (chain: seq<Job>, results: seq<Result>)
    requires Accepts(StepOf(jobs, spool, id).progress)
    ensures ReviewStage(id, chain, results) && Succeeded(results[2]) && results[2].body.detail.accepted
    ensures BundleOk(spool, results[1])
    ensures forall i | 0 <= i < 3 ::
      chain[i].jobId in spool.results && spool.results[chain[i].jobId] == results[i]
    ensures forall i | 0 <= i < 3 :: Publication(jobs, spool, chain[i]).Published?
  {
    hide ResultOk, JobOk, BundleOk, Covers, AcceptedOf, TerminalOf, StatusOf, Publication;
    var planner := PlannerJob(id);
    var after := jobs[planner.jobId := planner];
    assert Publication(jobs, spool, planner).Published? && Accepts(Planned(after, spool, id, planner).progress);
    var plan := spool.results[planner.jobId];
    PublishedIsSound(jobs, spool, planner);
    SaysMore(plan, planner);
    var executor := ExecutorJob(id, plan);
    PublicationStands(jobs, spool, planner, executor);
    var last := after[executor.jobId := executor];
    assert Accepts(Executed(last, spool, id, planner, plan, executor).progress);
    PublishedIsSound(after, spool, executor);
    hide StepOf, Planned;
    var execution := spool.results[executor.jobId];
    SaysMore(execution, executor);
    var reviewer := ReviewerJob(id, plan, execution);
    PublicationStands(jobs, spool, planner, reviewer);
    PublicationStands(after, spool, executor, reviewer);
    PublishedIsSound(last, spool, reviewer);
    chain, results := [planner, executor, reviewer], [plan, execution, spool.results[reviewer.jobId]];
  }

  /**
   The work is reported accepted exactly if there is a complete chain for it: published or free to
   be published, with its three results in the spool and its bundle in place.
   */
  lemma {:induction false} AcceptedExactlyOnChains(jobs: map<Text, Job>, spool: Spool, id: Identity)
    ensures Accepts(StepOf(jobs, spool, id).progress) <==>
      exists chain, results :: EndsWell(jobs, spool, id, chain, results)
  {
    if Accepts(StepOf(jobs, spool, id).progress) {
      AcceptedHasChain(jobs, spool, id);
    }
    forall chain, results | EndsWell(jobs, spool, id, chain, results) ensures Accepts(StepOf(jobs, spool, id).progress) {
      hide StepOf, EndsWell;
      ChainEndsWell(jobs, spool, id, chain, results);
    }
    hide StepOf, EndsWell;
  }

  lemma {:induction false} AcceptedHasChain(jobs: map<Text, Job>, spool: Spool, id: Identity)
    requires Accepts(StepOf(jobs, spool, id).progress)
    ensures exists chain, results :: EndsWell(jobs, spool, id, chain, results)
  {
    hide StepOf;
    var chain, results := AcceptedUnfolds(jobs, spool, id);
    AcceptedExit(id, chain, results);
    assert chain[0].body.identity == id && results[1].body.detail.ExecutionDetail?;
    hide ReviewStage, ResultChainOk, Publication, BundleOk;
    assert EndsWell(jobs, spool, id, chain, results);
  }

  // ----- the ledger, and waiting

  predicate OwnJob(j: Text, job: Job, spool: Spool, id: Identity)
  {
    JobOk(job, j) && job.body.identity == id && spool.fits(job.body) && j !in spool.barred
  }

  /**
   Nothing published is lost or changed, and what is new is this work's own, within the size bound,
   not barred, admitted and fetched.
   */
  predicate OnlyAdds(before: map<Text, Job>, after: map<Text, Job>, spool: Spool, id: Identity)
  {
    && (forall j | j in before :: j in after && after[j] == before[j])
    && (forall j | j in after && j !in before ::
          OwnJob(j, after[j], spool, id) && j !in spool.unadmitted && j !in spool.unfetched)
  }

  lemma {:induction false} PublishingOnlyAdds(
      jobs: map<Text, Job>, ledger: map<Text, Job>, spool: Spool, id: Identity, job: Job)
    requires OnlyAdds(jobs, ledger, spool, id) && Publication(ledger, spool, job).Published? && job.body.identity == id
    ensures OnlyAdds(jobs, ledger[job.jobId := job], spool, id) && OwnJob(job.jobId, job, spool, id)
  {
    hide JobOk;
  }

  /** The step waits only for the result of a job that it has published. */
  predicate WaitsForOwn(s: Stepped, spool: Spool, id: Identity)
  {
    s.progress.Pending? ==> exists j | j in s.jobs :: OwnJob(j, s.jobs[j], spool, id) && j !in spool.results
  }

  predicate Orderly(jobs: map<Text, Job>, s: Stepped, spool: Spool, id: Identity)
  {
    OnlyAdds(jobs, s.jobs, spool, id) && WaitsForOwn(s, spool, id)
  }

  lemma {:induction false} ExecutedOrderly(
      jobs: map<Text, Job>, ledger: map<Text, Job>, spool: Spool, id: Identity, planner: Job, plan: Result, executor: Job)
    requires plan.body.detail.PlanDetail? && executor.body.role == Executor
    requires OnlyAdds(jobs, ledger, spool, id)
    requires executor.jobId in ledger && ledger[executor.jobId] == executor
      && OwnJob(executor.jobId, executor, spool, id)
    ensures Orderly(jobs, Executed(ledger, spool, id, planner, plan, executor), spool, id)
  {
    hide JobOk, Publication, ResultOk, BundleOk, TerminalOf, StatusOf, AcceptedOf, OwnJob, Covers;
    if executor.jobId in spool.results && Answers(spool.results[executor.jobId], executor) {
      var execution := spool.results[executor.jobId];
      if Succeeded(execution) {
        SaysMore(execution, executor);
        var job := ReviewerJob(id, plan, execution);
        if Publication(ledger, spool, job).Published? { PublishingOnlyAdds(jobs, ledger, spool, id, job); }
      }
    }
  }

  lemma {:induction false} PlannedOrderly(
      jobs: map<Text, Job>, ledger: map<Text, Job>, spool: Spool, id: Identity, planner: Job)
    requires planner.body.role == Planner
    requires OnlyAdds(jobs, ledger, spool, id)
    requires planner.jobId in ledger && ledger[planner.jobId] == planner && OwnJob(planner.jobId, planner, spool, id)
    ensures Orderly(jobs, Planned(ledger, spool, id, planner), spool, id)
  {
    hide JobOk, Publication, ResultOk, TerminalOf, StatusOf, OwnJob, Executed;
    if planner.jobId in spool.results && Answers(spool.results[planner.jobId], planner) {
      var plan := spool.results[planner.jobId];
      if Succeeded(plan) {
        SaysMore(plan, planner);
        var job := ExecutorJob(id, plan);
        if Publication(ledger, spool, job).Published? {
          PublishingOnlyAdds(jobs, ledger, spool, id, job);
          ExecutedOrderly(jobs, ledger[job.jobId := job], spool, id, planner, plan, job);
        }
      }
    }
  }

  /** A step loses nothing, adds its own sound jobs only, and is pending only on a job that it has published. */
  lemma {:induction false} StepIsOrderly(jobs: map<Text, Job>, spool: Spool, id: Identity)
    ensures Orderly(jobs, StepOf(jobs, spool, id), spool, id)
  {
    hide JobOk, Publication, Planned, OwnJob;
    var planner := PlannerJob(id);
    if Publication(jobs, spool, planner).Published? {
      PublishingOnlyAdds(jobs, jobs, spool, id, planner);
      PlannedOrderly(jobs, jobs[planner.jobId := planner], spool, id, planner);
    }
  }

  // ----- an accepted work: the chains that the theorems speak of exist

  const INPUTS := Inputs(0, true)

  const WORK := Identity(Task(EventId(Plain(0), Plain(1)), Plain(0), Plain(1)), OfBytes(0), OfInputs(INPUTS), 0, INPUTS)

  const PLAN := Plan({0}, 0, true)

  const MANIFEST := Manifest([File("a", 0, 1, true)], 1, 1)

  function Signed(body: ResultBody): Result
  {
    Result(body, OfResult(body))
  }

  function PlanOf(planner: Job): Result
  {
    Signed(ResultBody(planner.jobId, Planner, 0, PlanDetail(PLAN, OfPlan(PLAN)), true))
  }

  function ExecutionOf(executor: Job): Result
  {
    Signed(ResultBody(executor.jobId, Executor, 0,
                      ExecutionDetail({0}, MANIFEST, OfManifest(MANIFEST), OfBytes(1), Locator(OfBytes(1))), true))
  }

  function ReviewOf(reviewer: Job): Result
  {
    Signed(ResultBody(reviewer.jobId, Reviewer, 0,
                      ReviewDetail(true, map[0 := true], DigestsOf(reviewer.body.dependencies)), true))
  }

  lemma {:induction false} ManifestIsValid()
    ensures ValidManifest(MANIFEST)
  {
    var f := MANIFEST.files[0];
    assert "a"[1..] == "" && Parts("") == [""] && [""][1..] == [];
    assert Parts("a") == [['a'] + ""] + [];
    assert ['a'] + "" == "a";
    assert SafePath(f.path);
    assert MANIFEST.files[..0] == [];
    assert Total([]) == 0 && Total(MANIFEST.files) == 1;
  }

  lemma {:induction false} SamplePlan(planner: Job, plan: Result)
    requires planner == PlannerJob(WORK) && plan == PlanOf(planner)
    ensures JobOk(planner, planner.jobId) && Answers(plan, planner)
  {
    assert |PLAN.criteria| == 1;
  }

  lemma {:induction false} SampleExecution(plan: Result, executor: Job, execution: Result)
    requires plan.body.detail == PlanDetail(PLAN, OfPlan(PLAN)) && plan.digest.OfResult?
    requires executor == ExecutorJob(WORK, plan) && execution == ExecutionOf(executor)
    ensures JobOk(executor, executor.jobId) && Answers(execution, executor)
  {
    ManifestIsValid();
    hide ValidManifest;
  }

  lemma {:induction false} SampleReview(plan: Result, execution: Result, reviewer: Job, review: Result)
    requires plan.body.detail == PlanDetail(PLAN, OfPlan(PLAN)) && plan.digest.OfResult? && execution.digest.OfResult?
    requires execution.body.detail.ExecutionDetail?
    requires execution.body.detail.manifestDigest.OfManifest? && execution.body.detail.bundleDigest.OfBytes?
    requires reviewer == ReviewerJob(WORK, plan, execution) && review == ReviewOf(reviewer)
    ensures JobOk(reviewer, reviewer.jobId) && Answers(review, reviewer) && Covers(review, plan, execution)
  {
    assert review.body.detail.decisions.Keys == {0};
  }

  lemma {:induction false} SampleStage(
      planner: Job, plan: Result, executor: Job, execution: Result, reviewer: Job, review: Result)
    requires planner == PlannerJob(WORK) && plan == PlanOf(planner)
    requires executor == ExecutorJob(WORK, plan) && execution == ExecutionOf(executor)
    requires reviewer == ReviewerJob(WORK, plan, execution) && review == ReviewOf(reviewer)
    ensures ReviewStage(WORK, [planner, executor, reviewer], [plan, execution, review])
  {
    hide JobOk, Answers, Covers;
    SamplePlan(planner, plan);
    SampleExecution(plan, executor, execution);
    SampleReview(plan, execution, reviewer, review);
    hide PlannerJob, ExecutorJob, ReviewerJob;
  }

  /** Nothing keeps the jobs of a stage from an empty ledger. */
  lemma {:induction false} StagePublishes(id: Identity, chain: seq<Job>, results: seq<Result>, spool: Spool)
    requires ReviewStage(id, chain, results) && (forall b :: spool.fits(b))
    requires spool.barred == {} && spool.unadmitted == {} && spool.unfetched == {}
    ensures forall i | 0 <= i < 3 :: Publication(map[], spool, chain[i]).Published?
    ensures chain[0].body.identity == id
    ensures chain[0].jobId != chain[1].jobId && chain[0].jobId != chain[2].jobId && chain[1].jobId != chain[2].jobId
  {
    hide Answers, Covers;
    assert JobOk(chain[0], chain[0].jobId) && JobOk(chain[1], chain[1].jobId) && JobOk(chain[2], chain[2].jobId);
  }

  /** Every such chain, once its results and its bundle are there, is what some step ends with. */
  lemma {:induction false} StageGoesThrough(id: Identity, chain: seq<Job>, results: seq<Result>)
    returns (spool: Spool)
    requires ReviewStage(id, chain, results) && Succeeded(results[2]) && results[2].body.detail.accepted
    ensures Accepts(StepOf(map[], spool, id).progress)
  {
    hide JobOk, Answers, Covers, ResultChainOk, StepOf, Publication, IdsOf;
    var d := results[1].body.detail;
    spool := Spool(
      map[chain[0].jobId := results[0], chain[1].jobId := results[1], chain[2].jobId := results[2]],
      map[d.bundleDigest := d.manifest.files], {}, false, {}, {}, body => true);
    AcceptedExit(id, chain, results);
    StagePublishes(id, chain, results, spool);
    assert BundleOk(spool, results[1]);
    hide BundleOk, ReviewStage;
    assert EndsWell(map[], spool, id, chain, results);
    ChainEndsWell(map[], spool, id, chain, results);
  }

  /** There is a work that goes through to its acceptance. */
  lemma {:induction false} SomeWorkIsAccepted() returns (spool: Spool)
    ensures Accepts(StepOf(map[], spool, WORK).progress)
  {
    var planner := PlannerJob(WORK);
    var plan := PlanOf(planner);
    var executor := ExecutorJob(WORK, plan);
    var execution := ExecutionOf(executor);
    var reviewer := ReviewerJob(WORK, plan, execution);
    var review := ReviewOf(reviewer);
    hide PlannerJob, ExecutorJob, ReviewerJob, PlanOf, ExecutionOf, StepOf, ReviewStage;
    SampleStage(planner, plan, executor, execution, reviewer, review);
    spool := StageGoesThrough(WORK, [planner, executor, reviewer], [plan, execution, review]);
  }
}
