/**
 The provenance of a finished central execution: how it is built from durable records, how the
 approval store checks it on completion, and what retention later decodes from the stored payload.
 */
module Provenance {
  import opened Options
  import opened ArtifactManifest
  import opened CentralProtocol
  import opened Tombstones
  import Planning

  datatype Status = FailedStatus | RejectedStatus | BudgetError

  /** The artifacts of a successful executor. */
  datatype Artifacts = Artifacts(manifest: Manifest, manifestDigest: Text, bundleDigest: Text, locator: Text)

  datatype Provenance =
    | AcceptedWork(
        mode: Planning.Mode, specification: Text, inputManifest: Text, roles: seq<Role>, jobIds: seq<Text>,
        dependencies: map<Dependency, Text>, reviewerJob: Text, reviewerResult: Text, reviewerAccepted: bool,
        manifest: Manifest, locator: Text)
    | TerminalWork(
        mode: Planning.Mode, specification: Text, inputManifest: Text, roles: seq<Role>, jobIds: seq<Text>,
        task: Task, terminalRole: Role, terminalStatus: Status, resultDigests: seq<Text>,
        artifacts: Option<Artifacts>)

  // ----- construction from durable records

  function IdsOf(jobs: seq<Job>): (ids: seq<Text>)
    ensures |ids| == |jobs|
    ensures forall i | 0 <= i < |jobs| :: ids[i] == jobs[i].jobId
  {
    if jobs == [] then [] else [jobs[0].jobId] + IdsOf(jobs[1..])
  }

  function RolesOf(jobs: seq<Job>): (roles: seq<Role>)
    ensures |roles| == |jobs|
    ensures forall i | 0 <= i < |jobs| :: roles[i] == jobs[i].body.role
  {
    if jobs == [] then [] else [jobs[0].body.role] + RolesOf(jobs[1..])
  }

  function DigestsIn(results: seq<Result>): (digests: seq<Text>)
    ensures |digests| == |results|
    ensures forall i | 0 <= i < |results| :: digests[i] == results[i].digest
  {
    if results == [] then [] else [results[0].digest] + DigestsIn(results[1..])
  }

  function ArtifactsOf(r: Result): Option<Artifacts>
  {
    var d := r.body.detail;
    if d.ExecutionDetail? then Some(Artifacts(d.manifest, d.manifestDigest, d.bundleDigest, d.locator)) else None
  }

  function StatusOf(terminal: Result): Status
  {
    var d := terminal.body.detail;
    if d.ReviewDetail? && !d.accepted then RejectedStatus else FailedStatus
  }

  /** The record itself, before anything is checked. */
  function TerminalOf(jobs: seq<Job>, results: seq<Result>, role: Role, status: Status): Provenance
    requires jobs != []
  {
    var first := jobs[0].body.identity;
    TerminalWork(Planning.Central, first.specification, first.inputManifest, RolesOf(jobs), IdsOf(jobs),
                 first.task, role, status, DigestsIn(results),
                 if |results| >= 2 then ArtifactsOf(results[1]) else None)
  }

  /** A job and its successful result in a chain that the next job's size cuts off. */
  predicate SuccessfulOk(jobs: seq<Job>, results: seq<Result>, i: nat)
    requires i < |jobs| == |results| <= 2
  {
    JobOk(jobs[i], jobs[i].jobId) && jobs[i].body.role == ROLES[i] && Succeeded(results[i]) && ContextOk(jobs[i], results[i])
  }

  predicate BudgetOk(jobs: seq<Job>, results: seq<Result>)
  {
    && 1 <= |jobs| <= 2 && |results| == |jobs|
    && (forall i | 0 <= i < |jobs| :: SuccessfulOk(jobs, results, i))
    && results[0].body.detail.PlanDetail?
    && (|jobs| == 2 ==>
          && SameTask(jobs[1], jobs[0])
          && Depends(jobs[1].body, PlannerJobId, jobs[0].jobId)
          && Depends(jobs[1].body, PlannerResultDigest, results[0].digest)
          && Depends(jobs[1].body, PlanDigest, results[0].body.detail.planDigest)
          && jobs[1].body.plan == Some(results[0].body.detail.plan))
  }

  /** Validate the records, build the provenance, and validate that in turn. */
  function BuildTerminal(jobs: seq<Job>, results: seq<Result>, overBudget: bool): Option<Provenance>
  {
    if overBudget then
      if BudgetOk(jobs, results) then Checked(TerminalOf(jobs, results, ROLES[|jobs|], BudgetError)) else None
    else if jobs != [] && TerminalChainOk(jobs, results, IdsOf(jobs), jobs[0].body.identity.task) then
      var terminal := results[|results| - 1];
      Checked(TerminalOf(jobs, results, terminal.body.role, StatusOf(terminal)))
    else None
  }

  function Checked(p: Provenance): Option<Provenance>
  {
    if ValidProvenance(p) then Some(p) else None
  }

  // ----- validation

  const ALL_DEPENDENCIES :=
    {PlannerJobId, PlanDigest, PlannerResultDigest,
     ExecutorJobId, ExecutorResultDigest, ArtifactManifestDigest, ArtifactBundleDigest}

  predicate AcceptedOk(p: Provenance)
    requires p.AcceptedWork?
  {
    && p.roles == ROLES
    && |p.jobIds| == 3 && AllDigests(p.jobIds) && Unique(p.jobIds)
    && p.dependencies.Keys == ALL_DEPENDENCIES
    && p.jobIds == [p.dependencies[PlannerJobId], p.dependencies[ExecutorJobId], p.reviewerJob]
    && p.mode == Planning.Central && p.reviewerAccepted
    && IsDigest(p.specification) && IsDigest(p.inputManifest) && IsDigest(p.reviewerJob) && IsDigest(p.reviewerResult)
    && (forall d | d in p.dependencies :: IsDigest(p.dependencies[d]))
    && p.locator == Locator(p.dependencies[ArtifactBundleDigest])
    && ValidOutcomeManifest(p.manifest)
    && p.dependencies[ArtifactManifestDigest] == OfManifest(p.manifest)
  }

  predicate StatusOk(roles: seq<Role>, role: Role, status: Status)
    requires 1 <= |roles| <= 3
  {
    match status
    case FailedStatus => role == roles[|roles| - 1]
    case RejectedStatus => |roles| == 3 && role == roles[2]
    case BudgetError => |roles| < 3 && role == ROLES[|roles|]
  }

  predicate ArtifactsOk(a: Artifacts)
  {
    && ValidManifest(a.manifest) && a.manifestDigest == OfManifest(a.manifest)
    && IsDigest(a.bundleDigest) && a.locator == Locator(a.bundleDigest)
  }

  predicate TaskOk(t: Task)
  {
    t.event.EventId? && t.key.Plain? && t.revision.Plain?
  }

  predicate TerminalOk(p: Provenance)
    requires p.TerminalWork?
  {
    && p.mode == Planning.Central && TaskOk(p.task)
    && IsDigest(p.specification) && IsDigest(p.inputManifest)
    && 1 <= |p.roles| <= 3 && |p.jobIds| == |p.roles| && |p.resultDigests| == |p.roles|
    && p.roles == ROLES[..|p.roles|]
    && AllDigests(p.jobIds) && AllDigests(p.resultDigests) && Unique(p.jobIds)
    && StatusOk(p.roles, p.terminalRole, p.terminalStatus)
    && (p.artifacts.Some? ==> ArtifactsOk(p.artifacts.value))
    && (p.artifacts.Some? <==> |p.roles| == 3 || (p.terminalStatus == BudgetError && |p.roles| == 2))
  }

  predicate ValidProvenance(p: Provenance)
  {
    if p.AcceptedWork? then AcceptedOk(p) else TerminalOk(p)
  }

  // ----- construction never fails its own last check

  lemma {:induction false} IdsAreDigests(jobs: seq<Job>, results: seq<Result>)
    requires |jobs| == |results| <= 3
    requires forall i | 0 <= i < |jobs| ::
      JobOk(jobs[i], jobs[i].jobId) && jobs[i].body.role == ROLES[i] && ContextOk(jobs[i], results[i])
    ensures AllDigests(IdsOf(jobs)) && Unique(IdsOf(jobs)) && AllDigests(DigestsIn(results))
    ensures RolesOf(jobs) == ROLES[..|jobs|]
  {
    forall i, j | 0 <= i < j < |jobs| ensures IdsOf(jobs)[i] != IdsOf(jobs)[j] {
      assert jobs[i].body.role != jobs[j].body.role;
    }
    forall i | 0 <= i < |jobs| ensures IsDigest(IdsOf(jobs)[i]) && IsDigest(DigestsIn(results)[i]) {
      assert ContextOk(jobs[i], results[i]);
    }
  }

  /** A successful executor has sound artifacts, a failed one has none. */
  lemma ExecutorArtifacts(r: Result)
    requires ResultOk(r, Executor)
    ensures ArtifactsOf(r).Some? <==> Succeeded(r)
    ensures ArtifactsOf(r).Some? ==> ArtifactsOk(ArtifactsOf(r).value)
  {
  }

  lemma {:induction false} InItsPlace(jobs: seq<Job>, results: seq<Result>, ids: seq<Text>, i: nat)
    requires i < |jobs| == |results| == |ids| && |ids| <= 3 && RecordOk(jobs, results, ids, i)
    ensures ids[i] == jobs[i].jobId && SoundRecord(jobs[i], results[i], ROLES[i])
  {
  }

  /** What every record of a chain has to itself. */
  predicate SoundRecord(job: Job, r: Result, role: Role)
  {
    && JobOk(job, job.jobId) && job.body.role == role && ContextOk(job, r)
    && r.body.role == role && ResultOk(r, role)
    && TaskOk(job.body.identity.task)
    && IsDigest(job.body.identity.specification) && IsDigest(job.body.identity.inputManifest)
  }

  predicate Carries(results: seq<Result>, status: Status)
    requires 1 <= |results| <= 3
  {
    |results| >= 2 ==> (Succeeded(results[1]) <==> |results| == 3 || status == BudgetError)
  }

  lemma {:induction false} ArtifactsFit(jobs: seq<Job>, results: seq<Result>, role: Role, status: Status)
    requires 1 <= |jobs| == |results| <= 3 && Carries(results, status)
    requires |jobs| >= 2 ==> ResultOk(results[1], Executor)
    ensures var p := TerminalOf(jobs, results, role, status);
      && (p.artifacts.Some? ==> ArtifactsOk(p.artifacts.value))
      && (p.artifacts.Some? <==> |p.roles| == 3 || (status == BudgetError && |p.roles| == 2))
  {
    hide ResultOk, ArtifactsOk, ArtifactsOf, Succeeded;
    if |jobs| >= 2 { ExecutorArtifacts(results[1]); }
  }

  lemma {:induction false} ShapeOf(jobs: seq<Job>, results: seq<Result>, role: Role, status: Status)
    requires 1 <= |jobs| == |results| <= 3
    requires forall i | 0 <= i < |jobs| :: SoundRecord(jobs[i], results[i], ROLES[i])
    requires StatusOk(ROLES[..|jobs|], role, status) && Carries(results, status)
    ensures ValidProvenance(TerminalOf(jobs, results, role, status))
  {
    hide JobOk, ContextOk, ResultOk, ArtifactsOk, ArtifactsOf, Unique, AllDigests, Carries;
    assert forall i | 0 <= i < |jobs| :: SoundRecord(jobs[i], results[i], ROLES[i]);
    IdsAreDigests(jobs, results);
    ArtifactsFit(jobs, results, role, status);
    hide StatusOk, IdsOf, DigestsIn, RolesOf;
    assert SoundRecord(jobs[0], results[0], ROLES[0]);
  }

  lemma {:induction false} TerminalIsValid(jobs: seq<Job>, results: seq<Result>, ids: seq<Text>, task: Task)
    requires TerminalChainOk(jobs, results, ids, task)
    ensures BuildTerminal(jobs, results, false) ==
      Some(TerminalOf(jobs, results, results[|results| - 1].body.role, StatusOf(results[|results| - 1])))
  {
    hide JobOk, ContextOk;
    var n := |jobs|;
    forall i | 0 <= i < n ensures ids[i] == jobs[i].jobId && SoundRecord(jobs[i], results[i], ROLES[i]) {
      InItsPlace(jobs, results, ids, i);
    }
    assert IdsOf(jobs) == ids;
    var terminal := results[n - 1];
    assert SoundRecord(jobs[n - 1], terminal, ROLES[n - 1]);
    assert StatusOk(ROLES[..n], terminal.body.role, StatusOf(terminal));
    if n == 3 { assert RecordOk(jobs, results, ids, 2); }
    ShapeOf(jobs, results, terminal.body.role, StatusOf(terminal));
    hide ValidProvenance, TerminalOf, TerminalChainOk, SoundRecord;
  }

  lemma {:induction false} BudgetIsValid(jobs: seq<Job>, results: seq<Result>)
    requires BudgetOk(jobs, results)
    ensures BuildTerminal(jobs, results, true) == Some(TerminalOf(jobs, results, ROLES[|jobs|], BudgetError))
  {
    forall i | 0 <= i < |jobs| ensures SoundRecord(jobs[i], results[i], ROLES[i]) && Succeeded(results[i]) {
      assert SuccessfulOk(jobs, results, i);
    }
    ShapeOf(jobs, results, ROLES[|jobs|], BudgetError);
  }

  // ----- completion, and the record that retention decodes from the stored payload

  /** The claimed work item, as far as provenance is bound to it. */
  datatype Item = Item(task: Task, specification: Text, mode: Planning.Mode)

  /** An accepted chain names no event; a terminal one does. */
  predicate Binds(p: Provenance, item: Item)
  {
    && p.mode == item.mode && p.specification == item.specification
    && (p.TerminalWork? ==> p.task == item.task)
  }

  predicate Matches(p: Provenance, succeeded: bool)
  {
    p.AcceptedWork? <==> succeeded
  }

  /** The store takes the outcome; only a failed central execution may come without provenance. */
  predicate Completes(item: Item, succeeded: bool, p: Option<Provenance>)
  {
    && (p.None? ==> item.mode == Planning.Central && !succeeded)
    && (p.Some? ==> ValidProvenance(p.value) && Binds(p.value, item) && Matches(p.value, succeeded))
  }

  /** A completed central row with its outbox entry. */
  datatype Row = Row(
    item: Item, succeeded: bool, provenance: Option<Provenance>, created: int, delivered: Option<int>)

  predicate Stored(row: Row)
  {
    && Genuine(row.item.task) && row.item.mode == Planning.Central && IsDigest(row.item.specification)
    && 0 <= row.created && (row.delivered.Some? ==> row.created <= row.delivered.value)
    && Completes(row.item, row.succeeded, row.provenance)
  }

  function Blank(row: Row, scratchTtl: nat, evidenceTtl: nat): Planning.Record
  {
    Planning.Record(
      row.item.task, row.item.mode, Planning.Cleaned, row.succeeded, row.created, row.delivered,
      row.created + scratchTtl,
      if row.delivered.Some? then Some(row.delivered.value + evidenceTtl) else None,
      [], None, false, [], None, [])
  }

  predicate Readable(row: Row)
  {
    && IsDigest(row.item.specification)
    && 0 <= row.created && (row.delivered.Some? ==> row.created <= row.delivered.value)
  }

  /** Decoding the row validates the stored provenance once more. */
  function RecordOf(row: Row, scratchTtl: nat, evidenceTtl: nat): Option<Planning.Record>
  {
    if !Readable(row) then None
    else if row.provenance.None? then
      if row.succeeded then None else Some(Blank(row, scratchTtl, evidenceTtl))
    else Described(Blank(row, scratchTtl, evidenceTtl), row.item, row.provenance.value)
  }

  function Described(blank: Planning.Record, item: Item, p: Provenance): Option<Planning.Record>
  {
    if !ValidProvenance(p) || p.specification != item.specification || !Matches(p, blank.succeeded) then None
    else if p.AcceptedWork? then
      var d := p.dependencies;
      Some(blank.(jobs := p.jobIds, bundle := Some(d[ArtifactBundleDigest]),
                  results := [d[PlannerResultDigest], d[ExecutorResultDigest], p.reviewerResult]))
    else if p.task != item.task then None
    else
      Some(blank.(jobs := p.jobIds, results := p.resultDigests,
                  bundle := if p.artifacts.Some? then Some(p.artifacts.value.bundleDigest) else None))
  }

  /**
   Every outcome that the store takes decodes again, and the planner finds its record consistent
   exactly if the outcome has provenance: that is why the query passes over bare failures, one of
   which would stop the planner for good.
   */
  lemma StoredRecordDecodes(row: Row, scratchTtl: nat, evidenceTtl: nat)
    requires Stored(row)
    ensures RecordOf(row, scratchTtl, evidenceTtl).Some?
    ensures var r := RecordOf(row, scratchTtl, evidenceTtl).value;
      && Planning.Aged(r, scratchTtl, evidenceTtl)
      && (Planning.RecordOk(r) <==> row.provenance.Some?)
      && (row.provenance.Some? ==> r.jobs == row.provenance.value.jobIds && r.task == row.item.task)
  {
    hide ValidOutcomeManifest, ValidManifest;
    if row.provenance.Some? {
      if row.provenance.value.AcceptedWork? { AcceptedRecord(row, scratchTtl, evidenceTtl); }
      else { TerminalRecord(row, scratchTtl, evidenceTtl); }
    }
  }

  lemma AcceptedRecord(row: Row, scratchTtl: nat, evidenceTtl: nat)
    requires Stored(row) && row.provenance.Some? && row.provenance.value.AcceptedWork?
    ensures RecordOf(row, scratchTtl, evidenceTtl).Some?
    ensures Planning.RecordOk(RecordOf(row, scratchTtl, evidenceTtl).value)
  {
    hide ValidOutcomeManifest, ValidManifest;
  }

  lemma TerminalRecord(row: Row, scratchTtl: nat, evidenceTtl: nat)
    requires Stored(row) && row.provenance.Some? && row.provenance.value.TerminalWork?
    ensures RecordOf(row, scratchTtl, evidenceTtl).Some?
    ensures Planning.RecordOk(RecordOf(row, scratchTtl, evidenceTtl).value)
  {
    hide ValidOutcomeManifest, ValidManifest;
  }

  /** What is planned for a stored outcome deletes exactly its jobs, and survives the tombstone codec. */
  lemma PlannedFromStored(row: Row, scratchTtl: nat, evidenceTtl: nat, now: int)
    requires Stored(row) && row.provenance.Some? && row.created + scratchTtl <= now
    ensures RecordOf(row, scratchTtl, evidenceTtl).Some?
    ensures var plans := Planning.PlansOf(RecordOf(row, scratchTtl, evidenceTtl).value, now);
      && plans != [] && plans[0].Jobs() == row.provenance.value.jobIds
      && forall t | t in plans :: t.task == row.item.task && Planning.Decode(Planning.Encode(t)) == Some(t)
  {
    StoredRecordDecodes(row, scratchTtl, evidenceTtl);
    var r := RecordOf(row, scratchTtl, evidenceTtl).value;
    forall t | t in Planning.PlansOf(r, now)
      ensures t.task == row.item.task && Planning.Decode(Planning.Encode(t)) == Some(t)
    {
      Planning.PlansAreWellFormed(r, now);
      Planning.PlansSurvive(r, now, t);
    }
  }
}
