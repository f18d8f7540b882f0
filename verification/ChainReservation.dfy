/**
 The storage reserved when a planner's job is published: it covers the executor's and the reviewer's
 jobs as well, whatever plan and execution they will carry.  Texts are canonical JSON, by the byte.
 */
module ChainReservation {
  import opened StorageQuota
  import opened StorageTree

  /** A canonical JSON value: an object with its fields in order, or any other value by its text. */
  datatype Value = Leaf(text: string) | Object(fields: seq<Field>)

  datatype Field = Field(key: string, value: Value)

  function Canonical(v: Value): string
  {
    match v
    case Leaf(text) => text
    case Object(fields) => "{" + CanonicalFields(fields) + "}"
  }

  function CanonicalFields(fields: seq<Field>): string
  {
    if fields == [] then ""
    else
      "\"" + fields[0].key + "\":" + Canonical(fields[0].value)
      + if |fields| == 1 then "" else "," + CanonicalFields(fields[1..])
  }

  /** The bytes of a field: quotes, key, colon and value. */
  function FieldBytes(f: Field): nat
  {
    |f.key| + 3 + |Canonical(f.value)|
  }

  function FieldsBytes(fields: seq<Field>): nat
  {
    if fields == [] then 0 else FieldBytes(fields[0]) + FieldsBytes(fields[1..])
  }

  lemma {:induction false} CanonicalBytes(fields: seq<Field>)
    ensures fields != [] ==> |CanonicalFields(fields)| == FieldsBytes(fields) + |fields| - 1
    ensures |Canonical(Object(fields))| == FieldsBytes(fields) + 1 + if fields == [] then 1 else |fields|
  {
    if fields != [] { CanonicalBytes(fields[1..]); }
  }

  lemma {:induction false} FieldsBytesAppend(a: seq<Field>, b: seq<Field>)
    ensures FieldsBytes(a + b) == FieldsBytes(a) + FieldsBytes(b)
  {
    if a == [] {
      assert a + b == b;
    } else {
      assert (a + b)[1..] == a[1..] + b;
      FieldsBytesAppend(a[1..], b);
    }
  }

  // ----- the records

  /** A digest in lower-case hexadecimal. */
  type Digest = s: string | |s| == 64 witness seq(64, _ => '0')

  function Quoted(s: string): Value
  {
    Leaf("\"" + s + "\"")
  }

  /** What all three jobs of a chain share, as canonical text. */
  datatype Envelope = Envelope(
    snapshot: string, event: string, manifest: Digest, inputs: string, revision: string, specification: Digest,
    task: string)

  const JOB_KIND := "moodle-agent-job-v2"

  const RESULT_KIND := "moodle-agent-result-v2"

  const MAX_RESULT := 256 * 1024

  function JobHead(e: Envelope, dependencies: seq<Field>): seq<Field>
  {
    [Field("assignmentSnapshot", Leaf(e.snapshot)), Field("dependencies", Object(dependencies)),
     Field("eventId", Leaf(e.event))]
  }

  function JobName(id: Digest): seq<Field>
  {
    [Field("jobId", Quoted(id)), Field("kind", Quoted(JOB_KIND))]
  }

  function JobTail(e: Envelope, role: string): seq<Field>
  {
    [Field("preparedInputManifestDigest", Quoted(e.manifest)), Field("preparedInputs", Leaf(e.inputs)),
     Field("revisionDigest", Leaf(e.revision)), Field("role", Quoted(role)),
     Field("selectedMode", Quoted("central")), Field("specificationDigest", Quoted(e.specification)),
     Field("taskKey", Leaf(e.task))]
  }

  function PlannerJob(e: Envelope, id: Digest): Value
  {
    Object(JobHead(e, []) + JobName(id) + JobTail(e, "central_planner"))
  }

  function ExecutorJob(e: Envelope, id: Digest, dependencies: seq<Digest>, plan: Value): Value
    requires |dependencies| == 3
  {
    Object(JobHead(e, ExecutorDependencies(dependencies)) + JobName(id) + [Field("plan", plan)]
           + JobTail(e, "central_executor"))
  }

  function ReviewerJob(e: Envelope, id: Digest, dependencies: seq<Digest>, plan: Value, execution: Value): Value
    requires |dependencies| == 7
  {
    Object(JobHead(e, ReviewerDependencies(dependencies)) + [Field("executorResult", execution)] + JobName(id)
           + [Field("plan", plan)] + JobTail(e, "central_reviewer"))
  }

  function ExecutorDependencies(d: seq<Digest>): seq<Field>
    requires |d| == 3
  {
    [Field("planDigest", Quoted(d[0])), Field("plannerJobId", Quoted(d[1])), Field("plannerResultDigest", Quoted(d[2]))]
  }

  function ReviewerDependencies(d: seq<Digest>): seq<Field>
    requires |d| == 7
  {
    [Field("artifactBundleDigest", Quoted(d[3])), Field("artifactManifestDigest", Quoted(d[4])),
     Field("executorJobId", Quoted(d[5])), Field("executorResultDigest", Quoted(d[6]))]
    + ExecutorDependencies(d[..3])
  }

  /** A successful planner's result; report and summary are not blank. */
  function PlannerResult(
      id: Digest, plan: Value, planDigest: Digest, resultDigest: Digest, report: string, summary: string): Value
  {
    Object([Field("jobId", Quoted(id)), Field("kind", Quoted(RESULT_KIND)), Field("plan", plan),
            Field("planDigest", Quoted(planDigest)), Field("plannerResultDigest", Quoted(resultDigest)),
            Field("reportMarkdown", Quoted(report)), Field("role", Quoted("central_planner")),
            Field("succeeded", Leaf("true")), Field("summary", Quoted(summary))])
  }

  /** The envelope that the reservation adds to the results. */
  function DependencyEnvelope(d: Digest): Value
  {
    Object([Field("dependencies", Object(ReviewerDependencies(seq(7, _ => d)))),
            Field("executorResult", Object([])), Field("plan", Object([]))])
  }

  // ----- their lengths

  lemma BytesOfThree(a: Field, b: Field, c: Field)
    ensures FieldsBytes([a, b, c]) == FieldBytes(a) + FieldBytes(b) + FieldBytes(c)
  {
    hide FieldBytes;
    assert [a, b, c][1..] == [b, c] && [b, c][1..] == [c] && [c][1..] == [];
    assert FieldsBytes([b, c]) == FieldBytes(b) + FieldsBytes([c]);
  }

  lemma BytesOfFour(a: Field, b: Field, c: Field, d: Field)
    ensures FieldsBytes([a, b, c, d]) == FieldBytes(a) + FieldBytes(b) + FieldBytes(c) + FieldBytes(d)
  {
    hide FieldBytes;
    assert [a, b, c, d][1..] == [b, c, d];
    BytesOfThree(b, c, d);
  }

  lemma HeadBytes(e: Envelope, dependencies: seq<Field>)
    ensures FieldsBytes(JobHead(e, dependencies)) ==
      FieldsBytes(JobHead(e, [])) + |Canonical(Object(dependencies))| - 2
  {
    var a, c := Field("assignmentSnapshot", Leaf(e.snapshot)), Field("eventId", Leaf(e.event));
    BytesOfThree(a, Field("dependencies", Object(dependencies)), c);
    BytesOfThree(a, Field("dependencies", Object([])), c);
  }

  lemma TailBytes(e: Envelope, role: string)
    ensures FieldsBytes(JobTail(e, role)) == FieldsBytes(JobTail(e, "")) + |role|
  {
    hide FieldBytes;
    var head := JobTail(e, role)[..3];
    var rest := JobTail(e, role)[4..];
    assert JobTail(e, role) == head + ([Field("role", Quoted(role))] + rest);
    assert JobTail(e, "") == head + ([Field("role", Quoted(""))] + rest);
    FieldsBytesAppend(head, [Field("role", Quoted(role))] + rest);
    FieldsBytesAppend(head, [Field("role", Quoted(""))] + rest);
    RoleBytes(role, rest);
    RoleBytes("", rest);
  }

  lemma {:induction false} RoleBytes(role: string, rest: seq<Field>)
    ensures FieldsBytes([Field("role", Quoted(role))] + rest) == 9 + |role| + FieldsBytes(rest)
  {
    assert ([Field("role", Quoted(role))] + rest)[1..] == rest;
  }

  lemma ExecutorDependenciesBytes(d: seq<Digest>)
    requires |d| == 3
    ensures FieldsBytes(ExecutorDependencies(d)) == 248
  {
    BytesOfThree(Field("planDigest", Quoted(d[0])), Field("plannerJobId", Quoted(d[1])),
                 Field("plannerResultDigest", Quoted(d[2])));
  }

  lemma ReviewerDependenciesBytes(d: seq<Digest>)
    requires |d| == 7
    ensures FieldsBytes(ReviewerDependencies(d)) == 599
  {
    ExecutorDependenciesBytes(d[..3]);
    var first := [Field("artifactBundleDigest", Quoted(d[3])), Field("artifactManifestDigest", Quoted(d[4])),
                  Field("executorJobId", Quoted(d[5])), Field("executorResultDigest", Quoted(d[6]))];
    BytesOfFour(first[0], first[1], first[2], first[3]);
    FieldsBytesAppend(first, ExecutorDependencies(d[..3]));
  }

  lemma NameBytes(id: Digest)
    ensures FieldsBytes(JobName(id)) == 102
  {
    var a, b := Field("jobId", Quoted(id)), Field("kind", Quoted(JOB_KIND));
    assert [a, b][1..] == [b] && [b][1..] == [];
    assert FieldBytes(a) == 74 && FieldBytes(b) == 28;
    hide FieldBytes;
    assert FieldsBytes([a, b]) == FieldBytes(a) + FieldsBytes([b]);
  }

  lemma OneBytes(f: Field)
    ensures FieldsBytes([f]) == FieldBytes(f)
  {
  }

  lemma PlannerJobBytes(e: Envelope, id: Digest)
    ensures |Canonical(PlannerJob(e, id))| == FieldsBytes(JobHead(e, [])) + FieldsBytes(JobTail(e, "")) + 130
  {
    NameBytes(id);
    TailBytes(e, "central_planner");
    var fields := JobHead(e, []) + JobName(id) + JobTail(e, "central_planner");
    FieldsBytesAppend(JobHead(e, []) + JobName(id), JobTail(e, "central_planner"));
    FieldsBytesAppend(JobHead(e, []), JobName(id));
    CanonicalBytes(fields);
    hide FieldsBytes, Canonical;
  }

  /** The executor's job is the planner's with three dependencies and the plan. */
  lemma {:induction false} ExecutorJobBytes(
      e: Envelope, id: Digest, other: Digest, dependencies: seq<Digest>, plan: Value)
    requires |dependencies| == 3
    ensures |Canonical(ExecutorJob(e, id, dependencies, plan))| ==
      |Canonical(PlannerJob(e, other))| + 259 + |Canonical(plan)|
  {
    PlannerJobBytes(e, other);
    var d := ExecutorDependencies(dependencies);
    ExecutorDependenciesBytes(dependencies);
    CanonicalBytes(d);
    HeadBytes(e, d);
    NameBytes(id);
    TailBytes(e, "central_executor");
    OneBytes(Field("plan", plan));
    var a, b, c := JobHead(e, d), JobName(id), [Field("plan", plan)];
    FieldsBytesAppend(a + b + c, JobTail(e, "central_executor"));
    FieldsBytesAppend(a + b, c);
    FieldsBytesAppend(a, b);
    CanonicalBytes(a + b + c + JobTail(e, "central_executor"));
    hide FieldsBytes, Canonical;
  }

  /** And the review job is the planner's with seven dependencies, the plan and the execution. */
  lemma {:induction false} ReviewerJobBytes(
      e: Envelope, id: Digest, other: Digest, dependencies: seq<Digest>, plan: Value, execution: Value)
    requires |dependencies| == 7
    ensures |Canonical(ReviewerJob(e, id, dependencies, plan, execution))| ==
      |Canonical(PlannerJob(e, other))| + 632 + |Canonical(plan)| + |Canonical(execution)|
  {
    PlannerJobBytes(e, other);
    var d := ReviewerDependencies(dependencies);
    ReviewerDependenciesBytes(dependencies);
    CanonicalBytes(d);
    HeadBytes(e, d);
    NameBytes(id);
    TailBytes(e, "central_reviewer");
    OneBytes(Field("plan", plan));
    OneBytes(Field("executorResult", execution));
    var a, x, b, c := JobHead(e, d), [Field("executorResult", execution)], JobName(id), [Field("plan", plan)];
    FieldsBytesAppend(a + x + b + c, JobTail(e, "central_reviewer"));
    FieldsBytesAppend(a + x + b, c);
    FieldsBytesAppend(a + x, b);
    FieldsBytesAppend(a, x);
    CanonicalBytes(a + x + b + c + JobTail(e, "central_reviewer"));
    hide FieldsBytes, Canonical;
  }

  /** A plan is well below the result that carries it. */
  lemma {:induction false} PlanBytes(
      id: Digest, plan: Value, planDigest: Digest, resultDigest: Digest, report: string, summary: string)
    ensures |Canonical(PlannerResult(id, plan, planDigest, resultDigest, report, summary))| ==
      360 + |Canonical(plan)| + |report| + |summary|
  {
    var a := [Field("jobId", Quoted(id)), Field("kind", Quoted(RESULT_KIND)), Field("plan", plan)];
    var b := [Field("planDigest", Quoted(planDigest)), Field("plannerResultDigest", Quoted(resultDigest)),
              Field("reportMarkdown", Quoted(report))];
    var c := [Field("role", Quoted("central_planner")), Field("succeeded", Leaf("true")), Field("summary", Quoted(summary))];
    BytesOfThree(a[0], a[1], a[2]);
    BytesOfThree(b[0], b[1], b[2]);
    BytesOfThree(c[0], c[1], c[2]);
    FieldsBytesAppend(a + b, c);
    FieldsBytesAppend(a, b);
    assert PlannerResult(id, plan, planDigest, resultDigest, report, summary) == Object(a + b + c);
    CanonicalBytes(a + b + c);
  }

  lemma EnvelopeBytes(d: Digest)
    ensures |Canonical(DependencyEnvelope(d))| == 654
  {
    var deps := ReviewerDependencies(seq(7, _ => d));
    ReviewerDependenciesBytes(seq(7, _ => d));
    CanonicalBytes(deps);
    CanonicalBytes([]);
    var a, b, c := Field("dependencies", Object(deps)), Field("executorResult", Object([])), Field("plan", Object([]));
    BytesOfThree(a, b, c);
    CanonicalBytes([a, b, c]);
  }

  // ----- the demands

  function JobDemand(job: Value, artifacts: seq<nat>, unit: nat): Demand
    requires unit > 0
  {
    Demand(SumRounded([|Canonical(job)|] + artifacts, unit), 3 + |artifacts|)
  }

  /** Three planner's jobs with their inputs, three results, and the dependency envelope. */
  function ChainFiles(planner: Value, artifacts: seq<nat>, d: Digest): seq<nat>
  {
    var one := [|Canonical(planner)|] + artifacts;
    one + one + one + [MAX_RESULT, MAX_RESULT, MAX_RESULT, |Canonical(DependencyEnvelope(d))|]
  }

  function ChainDemand(planner: Value, artifacts: seq<nat>, d: Digest, unit: nat): Demand
    requires unit > 0
  {
    Demand(SumRounded(ChainFiles(planner, artifacts, d), unit), 3 * (3 + |artifacts|))
  }

  lemma {:induction false} ChainDemandIs(planner: Value, artifacts: seq<nat>, d: Digest, unit: nat)
    requires unit > 0
    ensures ChainDemand(planner, artifacts, d, unit).bytes ==
      3 * (RoundUp(|Canonical(planner)|, unit) + SumRounded(artifacts, unit))
      + 3 * RoundUp(MAX_RESULT, unit) + RoundUp(|Canonical(DependencyEnvelope(d))|, unit)
  {
    var one := [|Canonical(planner)|] + artifacts;
    var rest := [MAX_RESULT, MAX_RESULT, MAX_RESULT, |Canonical(DependencyEnvelope(d))|];
    SumRoundedAppend(one + one + one, rest, unit);
    SumRoundedAppend(one + one, one, unit);
    SumRoundedAppend(one, one, unit);
    FileAndInputs(|Canonical(planner)|, artifacts, unit);
    SumOfFour(MAX_RESULT, MAX_RESULT, MAX_RESULT, |Canonical(DependencyEnvelope(d))|, unit);
    hide RoundUp, Canonical, SumRounded;
  }

  lemma {:induction false} SumOfFour(a: nat, b: nat, c: nat, d: nat, unit: nat)
    requires unit > 0
    ensures SumRounded([a, b, c, d], unit) == RoundUp(a, unit) + RoundUp(b, unit) + RoundUp(c, unit) + RoundUp(d, unit)
  {
    hide RoundUp;
    assert [a, b, c, d] == [a] + [b, c, d] && [b, c, d] == [b] + [c, d] && [c, d] == [c] + [d] && [d] == [d] + [];
    FileAndInputs(a, [b, c, d], unit);
    FileAndInputs(b, [c, d], unit);
    FileAndInputs(c, [d], unit);
    FileAndInputs(d, [], unit);
  }

  lemma {:induction false} FileAndInputs(size: nat, artifacts: seq<nat>, unit: nat)
    requires unit > 0
    ensures SumRounded([size] + artifacts, unit) == RoundUp(size, unit) + SumRounded(artifacts, unit)
  {
    assert ([size] + artifacts)[1..] == artifacts;
  }

  // ----- the reservation dominates

  /** A chain's later records, as far as their lengths are bounded when the planner's job is published. */
  datatype Chain = Chain(
    envelope: Envelope, ids: seq<Digest>, executorDependencies: seq<Digest>, reviewerDependencies: seq<Digest>,
    plan: Value, planDigest: Digest, resultDigest: Digest, report: string, summary: string, execution: Value)

  /** Both results keep within the bound that the protocol sets for results. */
  predicate WithinBounds(c: Chain)
  {
    && |c.ids| == 3 && |c.executorDependencies| == 3 && |c.reviewerDependencies| == 7
    && |Canonical(PlannerResult(c.ids[0], c.plan, c.planDigest, c.resultDigest, c.report, c.summary))| <= MAX_RESULT
    && |Canonical(c.execution)| <= MAX_RESULT
  }

  function Planning(c: Chain): Value
    requires WithinBounds(c)
  {
    PlannerJob(c.envelope, c.ids[0])
  }

  function Execution(c: Chain): Value
    requires WithinBounds(c)
  {
    ExecutorJob(c.envelope, c.ids[1], c.executorDependencies, c.plan)
  }

  function Review(c: Chain): Value
    requires WithinBounds(c)
  {
    ReviewerJob(c.envelope, c.ids[2], c.reviewerDependencies, c.plan, c.execution)
  }

  lemma ExecutionFits(c: Chain, unit: nat)
    requires WithinBounds(c) && unit > 0
    ensures RoundUp(|Canonical(Execution(c))|, unit) <= RoundUp(|Canonical(Planning(c))|, unit) + RoundUp(MAX_RESULT, unit)
  {
    var p := |Canonical(Planning(c))|;
    ExecutorJobBytes(c.envelope, c.ids[1], c.ids[0], c.executorDependencies, c.plan);
    PlanBytes(c.ids[0], c.plan, c.planDigest, c.resultDigest, c.report, c.summary);
    RoundUpMonotone(|Canonical(Execution(c))|, p + MAX_RESULT, unit);
    RoundUpSubadditive(p, MAX_RESULT, unit);
    hide RoundUp, Canonical;
  }

  lemma ReviewFits(c: Chain, d: Digest, unit: nat)
    requires WithinBounds(c) && unit > 0
    ensures RoundUp(|Canonical(Review(c))|, unit) <=
      RoundUp(|Canonical(Planning(c))|, unit) + 2 * RoundUp(MAX_RESULT, unit)
      + RoundUp(|Canonical(DependencyEnvelope(d))|, unit)
  {
    var p := |Canonical(Planning(c))|;
    var e := |Canonical(DependencyEnvelope(d))|;
    ReviewerJobBytes(c.envelope, c.ids[2], c.ids[0], c.reviewerDependencies, c.plan, c.execution);
    PlanBytes(c.ids[0], c.plan, c.planDigest, c.resultDigest, c.report, c.summary);
    EnvelopeBytes(d);
    RoundUpMonotone(|Canonical(Review(c))|, p + MAX_RESULT + MAX_RESULT + e, unit);
    RoundUpSubadditive(p + MAX_RESULT + MAX_RESULT, e, unit);
    RoundUpSubadditive(p + MAX_RESULT, MAX_RESULT, unit);
    RoundUpSubadditive(p, MAX_RESULT, unit);
    hide RoundUp, Canonical;
  }

  /**
   For every block size, envelope, plan, execution and set of inputs the reservation covers the three
   jobs' own demands put together.
   */
  lemma ReservationCoversChain(c: Chain, artifacts: seq<nat>, d: Digest, unit: nat)
    requires WithinBounds(c) && unit > 0
    ensures JobDemand(Planning(c), artifacts, unit)
            .Plus(JobDemand(Execution(c), artifacts, unit))
            .Plus(JobDemand(Review(c), artifacts, unit))
            .Within(ChainDemand(Planning(c), artifacts, d, unit))
  {
    ExecutionFits(c, unit);
    ReviewFits(c, d, unit);
    ChainDemandIs(Planning(c), artifacts, d, unit);
    FileAndInputs(|Canonical(Planning(c))|, artifacts, unit);
    FileAndInputs(|Canonical(Execution(c))|, artifacts, unit);
    FileAndInputs(|Canonical(Review(c))|, artifacts, unit);
    hide RoundUp, Canonical, SumRounded;
  }

  // ----- what the published jobs really hold

  /** What the two directories of a job allocate. */
  datatype Directories = Directories(job: nat, inputs: nat)

  function InputFiles(artifacts: seq<nat>, unit: nat): Entries
    requires unit > 0
  {
    if artifacts == [] then NoEntries
    else Entry(|artifacts|, File(RoundUp(artifacts[0], unit), 1), InputFiles(artifacts[1..], unit))
  }

  /** The directory of a job: its inputs, and its canonical text. */
  function JobTree(job: Value, artifacts: seq<nat>, unit: nat, made: Directories): Tree
    requires unit > 0
  {
    Directory(made.job, Entry(0, Directory(made.inputs, InputFiles(artifacts, unit)),
                              Entry(1, File(RoundUp(|Canonical(job)|, unit), 1), NoEntries)))
  }

  lemma {:induction false} InputsHeld(artifacts: seq<nat>, unit: nat)
    requires unit > 0
    ensures Held(NodesOf(InputFiles(artifacts, unit), {})) == Demand(SumRounded(artifacts, unit), |artifacts|)
  {
    hide RoundUp;
    if artifacts != [] {
      InputsHeld(artifacts[1..], unit);
      HeldOne(RoundUp(artifacts[0], unit));
      HeldAppends([RoundUp(artifacts[0], unit)], NodesOf(InputFiles(artifacts[1..], unit), {}));
    }
  }

  /** The walk counts a published job with its directories, of which the demand counts the nodes only. */
  lemma {:induction false} PublishedJobHolds(job: Value, artifacts: seq<nat>, unit: nat, made: Directories)
    requires unit > 0
    ensures Sound(JobTree(job, artifacts, unit, made))
    ensures Held(Nodes(JobTree(job, artifacts, unit, made))) ==
      JobDemand(job, artifacts, unit).Plus(Demand(made.job + made.inputs, 0))
    ensures Held(Nodes(JobTree(job, artifacts, unit, made))).Within(JobDemand(job, artifacts, unit)) <==>
      made.job == 0 && made.inputs == 0
  {
    hide RoundUp, Canonical;
    InputsSound(artifacts, unit);
    InputsHeld(artifacts, unit);
    FileAndInputs(|Canonical(job)|, artifacts, unit);
    var text := RoundUp(|Canonical(job)|, unit);
    var inputs := [made.inputs] + NodesOf(InputFiles(artifacts, unit), {});
    var file := Entry(1, File(text, 1), NoEntries);
    var folder := Directory(made.inputs, InputFiles(artifacts, unit));
    var entries := Entry(0, folder, file);
    assert Sound(folder) && SoundEntries(file, {}) && SoundEntries(entries, {});
    assert NodesOf(NoEntries, {}) == [] && NodesOf(file, {}) == [text] + [];
    assert Nodes(folder) == inputs && NodesOf(entries, {}) == inputs + [text];
    HeldOne(text);
    HeldOne(made.inputs);
    HeldOne(made.job);
    HeldAppends([made.inputs], NodesOf(InputFiles(artifacts, unit), {}));
    HeldAppends(inputs, [text]);
    HeldAppends([made.job], inputs + [text]);
    assert Nodes(JobTree(job, artifacts, unit, made)) == [made.job] + (inputs + [text]);
    hide Held, SumRounded, Nodes, NodesOf;
  }

  lemma {:induction false} InputsSound(artifacts: seq<nat>, unit: nat)
    requires unit > 0
    ensures SoundEntries(InputFiles(artifacts, unit), {})
  {
    if artifacts != [] { InputsSound(artifacts[1..], unit); }
  }

  /** The three demands put together, and what the reservation has to spare over them. */
  function JobsDemand(c: Chain, artifacts: seq<nat>, unit: nat): Demand
    requires WithinBounds(c) && unit > 0
  {
    JobDemand(Planning(c), artifacts, unit)
      .Plus(JobDemand(Execution(c), artifacts, unit)).Plus(JobDemand(Review(c), artifacts, unit))
  }

  function Slack(c: Chain, artifacts: seq<nat>, d: Digest, unit: nat): int
    requires WithinBounds(c) && unit > 0
  {
    ChainDemand(Planning(c), artifacts, d, unit).bytes - JobsDemand(c, artifacts, unit).bytes
  }

  /** The tree with the planner's job in it, and with the executor's besides. */
  function AfterPlanning(c: Chain, artifacts: seq<nat>, unit: nat, measured: Demand, made: Directories): Demand
    requires WithinBounds(c) && unit > 0
  {
    measured.Plus(Held(Nodes(JobTree(Planning(c), artifacts, unit, made))))
  }

  function AfterExecution(
      c: Chain, artifacts: seq<nat>, unit: nat, measured: Demand, made: Directories, next: Directories): Demand
    requires WithinBounds(c) && unit > 0
  {
    AfterPlanning(c, artifacts, unit, measured, made).Plus(Held(Nodes(JobTree(Execution(c), artifacts, unit, next))))
  }

  function Bytes(made: Directories): nat
  {
    made.job + made.inputs
  }

  /**
   When the chain is admitted and nothing else is written, its later jobs are admitted exactly if the
   bytes of the directories made for the earlier ones still fit: the executor's past two directories,
   the review's past four.
   */
  lemma {:induction false} LaterJobsAdmittedIff(
      c: Chain, artifacts: seq<nat>, d: Digest, unit: nat, measured: Demand, limit: Demand,
      made: Directories, next: Directories)
    requires WithinBounds(c) && unit > 0
    requires Admits(measured, ChainDemand(Planning(c), artifacts, d, unit), limit)
    ensures Admits(measured, JobDemand(Planning(c), artifacts, unit), limit)
    ensures Admits(AfterPlanning(c, artifacts, unit, measured, made), JobDemand(Execution(c), artifacts, unit), limit)
      <==> measured.bytes + JobDemand(Planning(c), artifacts, unit).bytes
           + JobDemand(Execution(c), artifacts, unit).bytes + Bytes(made) <= limit.bytes
    ensures Admits(AfterExecution(c, artifacts, unit, measured, made, next), JobDemand(Review(c), artifacts, unit), limit)
      <==> measured.bytes + JobsDemand(c, artifacts, unit).bytes + Bytes(made) + Bytes(next) <= limit.bytes
  {
    ReservationCoversChain(c, artifacts, d, unit);
    PublishedJobHolds(Planning(c), artifacts, unit, made);
    PublishedJobHolds(Execution(c), artifacts, unit, next);
    NodesOfDemands(c, artifacts, d, unit);
    hide JobDemand, ChainDemand, Held, Nodes, JobTree;
  }

  lemma {:induction false} NodesOfDemands(c: Chain, artifacts: seq<nat>, d: Digest, unit: nat)
    requires WithinBounds(c) && unit > 0
    ensures JobsDemand(c, artifacts, unit).nodes == ChainDemand(Planning(c), artifacts, d, unit).nodes
  {
  }

  /** The review job is sure of its place, whatever the limit, exactly if the slack covers the four directories. */
  lemma {:induction false} ReservationSufficesIff(
      c: Chain, artifacts: seq<nat>, d: Digest, unit: nat, made: Directories, next: Directories)
    requires WithinBounds(c) && unit > 0
    ensures
      (forall measured, limit | Admits(measured, ChainDemand(Planning(c), artifacts, d, unit), limit) ::
         Admits(AfterExecution(c, artifacts, unit, measured, made, next), JobDemand(Review(c), artifacts, unit), limit))
      <==> Bytes(made) + Bytes(next) <= Slack(c, artifacts, d, unit)
  {
    var chain := ChainDemand(Planning(c), artifacts, d, unit);
    forall measured, limit | Admits(measured, chain, limit)
      ensures Admits(AfterExecution(c, artifacts, unit, measured, made, next), JobDemand(Review(c), artifacts, unit), limit)
        <==> measured.bytes + JobsDemand(c, artifacts, unit).bytes + Bytes(made) + Bytes(next) <= limit.bytes
    {
      LaterJobsAdmittedIff(c, artifacts, d, unit, measured, limit, made, next);
    }
    hide JobDemand, ChainDemand, AfterExecution, JobsDemand;
    assert Admits(NOTHING, chain, chain);
  }

  // ----- a chain that is admitted and stranded

  function Filled(n: nat): string
  {
    seq(n, _ => 'x')
  }

  /** A whole block for the planner's job, and results as large as the protocol lets them be. */
  function Tight(snapshot: nat, d: Digest): Chain
  {
    Chain(Envelope(Filled(snapshot), "", d, "", "", d, ""), [d, d, d], [d, d, d], [d, d, d, d, d, d, d],
          Leaf(Filled(MAX_RESULT - 362)), d, d, "x", "x", Leaf(Filled(MAX_RESULT)))
  }

  lemma {:induction false} PlannerJobGrows(n: nat, d: Digest)
    ensures |Canonical(PlannerJob(Tight(n, d).envelope, d))| == |Canonical(PlannerJob(Tight(0, d).envelope, d))| + n
  {
    var e, f := Tight(n, d).envelope, Tight(0, d).envelope;
    PlannerJobBytes(e, d);
    PlannerJobBytes(f, d);
    var a, b, c := Field("assignmentSnapshot", Leaf(e.snapshot)), Field("dependencies", Object([])), Field("eventId", Leaf(""));
    BytesOfThree(a, b, c);
    BytesOfThree(Field("assignmentSnapshot", Leaf("")), b, c);
    assert JobTail(e, "") == JobTail(f, "");
    hide FieldsBytes, Canonical, JobTail;
  }

  lemma {:induction false} EmptyJobBytes(d: Digest)
    ensures |Canonical(PlannerJob(Tight(0, d).envelope, d))| == 439
  {
    var e := Tight(0, d).envelope;
    PlannerJobBytes(e, d);
    BytesOfThree(Field("assignmentSnapshot", Leaf("")), Field("dependencies", Object([])), Field("eventId", Leaf("")));
    var a := [Field("preparedInputManifestDigest", Quoted(d)), Field("preparedInputs", Leaf("")),
              Field("revisionDigest", Leaf(""))];
    var b := [Field("role", Quoted("")), Field("selectedMode", Quoted("central")),
              Field("specificationDigest", Quoted(d)), Field("taskKey", Leaf(""))];
    BytesOfThree(a[0], a[1], a[2]);
    BytesOfFour(b[0], b[1], b[2], b[3]);
    FieldsBytesAppend(a, b);
    assert JobTail(e, "") == a + b;
  }

  /** The lengths of the three jobs of the tight chain. */
  lemma {:induction false} TightBytes(d: Digest)
    ensures var c := Tight(3657, d);
      && WithinBounds(c)
      && |Canonical(Planning(c))| == 4096 && |Canonical(Execution(c))| == 266137 && |Canonical(Review(c))| == 528654
  {
    var c := Tight(3657, d);
    EmptyJobBytes(d);
    PlannerJobGrows(3657, d);
    PlanBytes(d, c.plan, d, d, "x", "x");
    ExecutorJobBytes(c.envelope, d, d, c.executorDependencies, c.plan);
    ReviewerJobBytes(c.envelope, d, d, c.reviewerDependencies, c.plan, c.execution);
    hide PlannerJob, ExecutorJob, ReviewerJob, PlannerResult;
  }

  lemma {:induction false} TightSlack(d: Digest)
    requires WithinBounds(Tight(3657, d))
    ensures Slack(Tight(3657, d), [], d, 4096) == 0
  {
    var c := Tight(3657, d);
    TightBytes(d);
    EnvelopeBytes(d);
    ChainDemandIs(Planning(c), [], d, 4096);
    FileAndInputs(|Canonical(Planning(c))|, [], 4096);
    FileAndInputs(|Canonical(Execution(c))|, [], 4096);
    FileAndInputs(|Canonical(Review(c))|, [], 4096);
    hide Tight, Canonical, Planning, Execution, Review, ChainDemand;
    assert RoundUp(4096, 4096) == 4096 && RoundUp(266137, 4096) == 266240 && RoundUp(528654, 4096) == 532480;
    assert RoundUp(MAX_RESULT, 4096) == MAX_RESULT && RoundUp(654, 4096) == 4096;
  }

  /**
   With blocks of 4096 bytes and a job of exactly one block there is nothing to spare: the chain is
   admitted into the last of the limit, its first two jobs make four directories of one block each,
   and the review job is refused.
   */
  lemma {:induction false} ChainIsStranded(d: Digest, measured: Demand) returns (c: Chain, limit: Demand)
    ensures WithinBounds(c) && Admits(measured, ChainDemand(Planning(c), [], d, 4096), limit)
    ensures var made := Directories(4096, 4096);
      !Admits(AfterExecution(c, [], 4096, measured, made, made), JobDemand(Review(c), [], 4096), limit)
  {
    c := Tight(3657, d);
    TightBytes(d);
    TightSlack(d);
    limit := measured.Plus(ChainDemand(Planning(c), [], d, 4096));
    var made := Directories(4096, 4096);
    LaterJobsAdmittedIff(c, [], d, 4096, measured, limit, made, made);
    hide Tight, WithinBounds, ChainDemand, JobsDemand, JobDemand, AfterExecution;
  }
}
