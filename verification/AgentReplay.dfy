/**
 The agent's consumption of one scratch tombstone, file by file.  Its locks and barriers keep
 everybody else away from these files, so one run at a time is modelled; a crash can stop it
 between any two of its file operations, and the trace records every state it can leave behind.
 The publication of one record is one operation here; what a crash inside the publication of the
 barriers and the intent, or of the acknowledgement, does to the next attempt is
 `Attempts.ConsumeRetryIff` and `Attempts.AckRetryIff`.
 */
module AgentReplay {
  import CP = CentralProtocol
  import opened Tombstones
  import opened StorageQuota
  import opened Traces

  datatype RootEntry = Inputs | Schema | Message | Outputs

  /** One file or directory of a workspace, with the root entry that it lies under. */
  datatype Node = Node(entry: RootEntry, cost: Demand)

  /** What is left of a workspace; recursive removal takes it in whatever order the directories list it. */
  datatype Tree = Tree(rest: seq<Node>, directory: Demand) {
    function Names(): set<RootEntry>
    {
      set n | n in rest :: n.entry
    }
  }

  /** The outcome that a published result records. */
  datatype Outcome = Succeeded | Failed

  /** `published` counts the barriers and the intent of the tombstone, in their fixed order. */
  datatype Files = Files(
    workspaces: map<Digest, Tree>,
    trash: map<Digest, Tree>,
    results: map<Digest, Outcome>,
    published: nat,
    acks: map<Tombstone, Ack>)

  /**
   The limits of the two agent metadata roots, what other records already hold there, and whether
   those pass the check of their ledgers.
   */
  datatype Policy = Policy(
    base: Demand, hard: Demand, soft: Demand, record: nat, othersFit: bool,
    acksHeld: Demand, acksHard: Demand, acksSoft: Demand, ack: nat)

  function Records(c: Committed): nat
  {
    |c.prepared.Barriers()| + 1
  }

  // ----- the checks before anything is deleted

  /** The root entries that the contract of the job at this position of the chain allows. */
  function Roots(c: Committed, i: nat): set<RootEntry>
  {
    if c.prepared.target.CentralScratch? && i == 1 then {Inputs, Schema, Message, Outputs} else {Inputs, Schema, Message}
  }

  predicate ValidWorkspace(c: Committed, i: nat, tree: Tree, outcome: Outcome)
  {
    if c.prepared.target.LabScratch? then
      tree.Names() <= Roots(c, i) && (outcome == Succeeded ==> tree.Names() == Roots(c, i))
    else
      tree.Names() == Roots(c, i) || (outcome == Failed && tree.Names() == Roots(c, i) - {Message})
  }

  predicate Passed(f: Files, j: Digest)
  {
    j in f.results && f.results[j] == Succeeded
  }

  /** A central leftover may have lost any root entry; a lab leftover is held to the rule of a workspace. */
  predicate ValidTrash(f: Files, c: Committed, i: nat, tree: Tree)
    requires i < |c.prepared.Jobs()|
  {
    && tree.Names() <= Roots(c, i)
    && (c.prepared.target.LabScratch? && Passed(f, c.prepared.Jobs()[i]) ==> tree.Names() == Roots(c, i))
  }

  predicate JobChecks(f: Files, c: Committed, i: nat, retry: bool)
    requires i < |c.prepared.Jobs()|
  {
    var j := c.prepared.Jobs()[i];
    var lab := c.prepared.target.LabScratch?;
    && (j in f.results || retry)
    && !(j in f.workspaces && j in f.trash)
    && (j in f.workspaces ==>
          if j in f.results then ValidWorkspace(c, i, f.workspaces[j], f.results[j])
          else lab && f.workspaces[j].Names() <= Roots(c, i))
    && (j in f.trash ==> retry && ValidTrash(f, c, i, f.trash[j]))
    && (j !in f.workspaces && j !in f.trash && !retry ==> lab && j in f.results && f.results[j] == Failed)
  }

  predicate Preflight(f: Files, c: Committed, retry: bool)
  {
    && (forall j | j in f.trash :: j in c.prepared.Jobs())
    && (forall i | 0 <= i < |c.prepared.Jobs()| :: JobChecks(f, c, i, retry))
  }

  // ----- admission

  function Times(n: nat, d: Demand): Demand
  {
    if n == 0 then NOTHING else d.Plus(Times(n - 1, d))
  }

  function Cost(nodes: seq<Node>): Demand
  {
    if nodes == [] then NOTHING else nodes[0].cost.Plus(Cost(nodes[1..]))
  }

  function TrashOf(f: Files, j: Digest): Demand
  {
    if j in f.trash then f.trash[j].directory.Plus(Cost(f.trash[j].rest)) else NOTHING
  }

  function TrashHeld(f: Files, jobs: seq<Digest>): Demand
  {
    if jobs == [] then NOTHING else TrashOf(f, jobs[0]).Plus(TrashHeld(f, jobs[1..]))
  }

  /** The metadata root holds the trash too. */
  function Measured(f: Files, c: Committed, policy: Policy): Demand
  {
    policy.base.Plus(Times(f.published, Demand(policy.record, 1))).Plus(TrashHeld(f, c.prepared.Jobs()))
  }

  function Missing(f: Files, c: Committed): nat
  {
    if f.published <= Records(c) then Records(c) - f.published else 0
  }

  predicate Fits(f: Files, c: Committed, policy: Policy)
  {
    Admits(Measured(f, c, policy), Times(Missing(f, c), Demand(policy.record, 2)), policy.hard)
  }

  /** The ledger of the agent's barriers takes a barrier under a job id of its tombstone only. */
  predicate BarriersFit(f: Files, c: Committed)
  {
    forall i | 0 <= i < |c.prepared.Barriers()| && i < f.published :: c.prepared.Barriers()[i] in c.prepared.Jobs()
  }

  predicate AckFits(f: Files, c: Committed, at: nat, policy: Policy)
  {
    if c.prepared in f.acks then
      f.acks[c.prepared] == Ack(c.at, at) && policy.acksHeld.Within(policy.acksHard)
    else Admits(policy.acksHeld, Demand(policy.ack, 2), policy.acksHard)
  }

  predicate Started(f: Files, c: Committed)
  {
    f.published == Records(c)
  }

  /** What the run checks before it publishes its barriers and its intent. */
  predicate MayStart(f: Files, c: Committed, policy: Policy)
  {
    && f.published <= Records(c)
    && (!Started(f, c) ==>
          SoftOpen(Measured(f, c, policy), policy.soft) && SoftOpen(policy.acksHeld, policy.acksSoft))
    && Preflight(f, c, Started(f, c))
    && policy.othersFit && BarriersFit(f, c)
    && Fits(f, c, policy)
  }

  // ----- what the run comes to, and what a crash leaves

  function Without(f: Files, jobs: seq<Digest>): Files
  {
    var gone := Elements(jobs);
    f.(workspaces := f.workspaces - gone, trash := f.trash - gone, results := f.results - gone)
  }

  /** Every target gone, every record published, and the acknowledgement there. */
  function Consumed(f: Files, c: Committed, at: nat): Files
  {
    Without(f, c.prepared.Jobs()).(published := Records(c), acks := f.acks[c.prepared := Ack(c.at, at)])
  }

  predicate IsPart(part: Tree, whole: Tree)
  {
    part.directory == whole.directory && multiset(part.rest) <= multiset(whole.rest)
  }

  /** A tree without one of its files or directories. */
  function Removed(tree: Tree, leaf: nat): Tree
    requires leaf < |tree.rest|
  {
    Tree(tree.rest[..leaf] + tree.rest[leaf + 1..], tree.directory)
  }

  predicate Untouched(origin: Files, f: Files, j: Digest)
  {
    && (j in f.workspaces <==> j in origin.workspaces)
    && (j in f.workspaces ==> f.workspaces[j] == origin.workspaces[j])
    && j !in f.trash
  }

  predicate Gone(f: Files, j: Digest)
  {
    j !in f.workspaces && j !in f.trash
  }

  predicate Moving(origin: Files, f: Files, j: Digest)
  {
    j !in f.workspaces && j in origin.workspaces && j in f.trash && IsPart(f.trash[j], origin.workspaces[j])
  }

  /** Workspaces go one after another, each through the trash, before the first result. */
  predicate EmptyingAt(origin: Files, f: Files, jobs: seq<Digest>, k: nat)
  {
    && k <= |jobs|
    && (forall i | 0 <= i < k :: Gone(f, jobs[i]))
    && (k < |jobs| ==> Untouched(origin, f, jobs[k]) || Moving(origin, f, jobs[k]) || Gone(f, jobs[k]))
    && (forall i | k < i < |jobs| :: Untouched(origin, f, jobs[i]))
  }

  predicate UnlinkedTo(origin: Files, f: Files, jobs: seq<Digest>, m: nat)
  {
    && m <= |jobs|
    && (forall i | 0 <= i < m :: jobs[i] !in f.results)
    && (forall i | m <= i < |jobs| :: jobs[i] in f.results <==> jobs[i] in origin.results)
    && (forall i | m <= i < |jobs| && jobs[i] in f.results :: f.results[jobs[i]] == origin.results[jobs[i]])
  }

  /** Everything outside the targets is as it was, and the records of the tombstone are there. */
  predicate OnlyTargets(origin: Files, f: Files, c: Committed)
  {
    Without(f, c.prepared.Jobs()) == Without(origin, c.prepared.Jobs()).(published := Records(c))
  }

  ghost predicate Emptying(origin: Files, f: Files, c: Committed, k: nat)
  {
    OnlyTargets(origin, f, c) && EmptyingAt(origin, f, c.prepared.Jobs(), k) && UnlinkedTo(origin, f, c.prepared.Jobs(), 0)
  }

  ghost predicate Unlinking(origin: Files, f: Files, c: Committed, m: nat)
  {
    && OnlyTargets(origin, f, c)
    && EmptyingAt(origin, f, c.prepared.Jobs(), |c.prepared.Jobs()|)
    && UnlinkedTo(origin, f, c.prepared.Jobs(), m)
  }

  /** The states of a run after its intent and before its acknowledgement. */
  ghost predicate Interrupted(origin: Files, f: Files, c: Committed)
  {
    (exists k :: Emptying(origin, f, c, k)) || (exists m :: Unlinking(origin, f, c, m))
  }

  /** A tombstone whose consumption has not started: nothing of it is in the trash. */
  predicate Fresh(f: Files, c: Committed)
  {
    f.published < Records(c) && Preflight(f, c, false)
  }

  /** Some of the records are published, nothing else has happened. */
  predicate Barring(origin: Files, f: Files, c: Committed)
  {
    f == origin.(published := f.published) && origin.published <= f.published < Records(c)
  }

  /** What a crash can leave of a consumption that started from `origin`. */
  ghost predicate Reached(origin: Files, f: Files, c: Committed)
  {
    Fresh(origin, c) && (Barring(origin, f, c) || Interrupted(origin, f, c))
  }

  /** A consumption of `origin` has not started yet, or has been interrupted. */
  ghost predicate Begun(origin: Files, f: Files, c: Committed)
  {
    (f == origin && Fresh(origin, c)) || Reached(origin, f, c)
  }

  // ----- single file operations

  datatype Operation =
    | PublishRecord
    | MoveWorkspace(job: Digest)
    | RemoveLeaf(job: Digest, leaf: nat)
    | RemoveDirectory(job: Digest)
    | UnlinkResult(job: Digest)
    | PublishAck(tombstone: Tombstone, ack: Ack)

  predicate Possible(f: Files, op: Operation)
  {
    match op
    case PublishRecord => true
    case MoveWorkspace(j) => j in f.workspaces && j !in f.trash
    case RemoveLeaf(j, leaf) => j in f.trash && leaf < |f.trash[j].rest|
    case RemoveDirectory(j) => j in f.trash && f.trash[j].rest == []
    case UnlinkResult(j) => j in f.results
    case PublishAck(_, _) => true
  }

  function Performed(f: Files, op: Operation): Files
    requires Possible(f, op)
  {
    match op
    case PublishRecord => f.(published := f.published + 1)
    case MoveWorkspace(j) => f.(workspaces := f.workspaces - {j}, trash := f.trash[j := f.workspaces[j]])
    case RemoveLeaf(j, leaf) => f.(trash := f.trash[j := Removed(f.trash[j], leaf)])
    case RemoveDirectory(j) => f.(trash := f.trash - {j})
    case UnlinkResult(j) => f.(results := f.results - {j})
    case PublishAck(t, a) => f.(acks := f.acks[t := a])
  }

  ghost predicate OneOperation(f: Files, g: Files)
  {
    exists op :: Possible(f, op) && g == Performed(f, op)
  }

  /** Every file operation from one state to the other is in the trace. */
  ghost predicate Complete(trace: seq<Files>, from: Files, to: Files)
  {
    Connected(trace, from, to, OneOperation)
  }

  lemma Still(f: Files)
    ensures Complete([f], f, f)
  {
    Stands(f, OneOperation);
  }

  lemma Performs(trace: seq<Files>, from: Files, to: Files, op: Operation)
    requires Complete(trace, from, to) && Possible(to, op)
    ensures Complete(trace + [Performed(to, op)], from, Performed(to, op))
  {
    assert OneOperation(to, Performed(to, op));
    Continues(trace, from, to, Performed(to, op), OneOperation);
  }

  lemma Follows(a: seq<Files>, b: seq<Files>, from: Files, middle: Files, to: Files)
    requires Complete(a, from, middle) && Complete(b, middle, to)
    ensures Complete(a + b, from, to)
  {
    Joins(a, b, from, middle, to, OneOperation);
  }

  /** A metadata root, the workspaces and the results of the agent, changed file by file. */
  class AgentRetention {
    var files: Files
    const policy: Policy

    constructor (f: Files, p: Policy)
      ensures files == f && policy == p
    {
      files, policy := f, p;
    }

    method PublishRecords(c: Committed) returns (ghost trace: seq<Files>)
      requires files.published <= Records(c)
      modifies this`files
      ensures files == old(files).(published := Records(c))
      ensures Complete(trace, old(files), files)
      ensures forall d | d in trace :: d == files || Barring(old(files), d, c)
    {
      hide Complete;
      ghost var origin := files;
      trace := [files];
      Still(files);
      while files.published < Records(c)
        invariant files == origin.(published := files.published)
        invariant origin.published <= files.published <= Records(c)
        invariant Complete(trace, origin, files)
        invariant forall d | d in trace :: d == files || Barring(origin, d, c)
      {
        Performs(trace, origin, files, PublishRecord);
        files := files.(published := files.published + 1);
        trace := trace + [files];
      }
    }

    /** Remove what is in the trash of one job, leaf by leaf. */
    method RemoveTrash(c: Committed, k: nat, ghost origin: Files, ghost tracked: bool)
      returns (ghost trace: seq<Files>)
      requires WellFormed(c.prepared) && k < |c.prepared.Jobs()| && c.prepared.Jobs()[k] !in files.workspaces
      requires tracked ==> Emptying(origin, files, c, k)
      modifies this`files
      ensures files == old(files).(trash := old(files).trash - {c.prepared.Jobs()[k]})
      ensures tracked ==> Emptying(origin, files, c, k + 1)
      ensures Complete(trace, old(files), files)
      ensures tracked ==> forall d | d in trace :: Interrupted(origin, d, c)
    {
      hide Complete;
      var j := c.prepared.Jobs()[k];
      trace := [files];
      Still(files);
      if j in files.trash {
        while files.trash[j].rest != []
          invariant j in files.trash && j !in files.workspaces
          invariant files == old(files).(trash := old(files).trash[j := files.trash[j]])
          invariant Complete(trace, old(files), files)
          invariant tracked ==> Emptying(origin, files, c, k) && forall d | d in trace :: Interrupted(origin, d, c)
          decreases |files.trash[j].rest|
        {
          var leaf: nat :| leaf < |files.trash[j].rest|;
          if tracked { LosesLeaf(origin, files, c, k, leaf); }
          Performs(trace, old(files), files, RemoveLeaf(j, leaf));
          files := files.(trash := files.trash[j := Removed(files.trash[j], leaf)]);
          trace := trace + [files];
        }
        Performs(trace, old(files), files, RemoveDirectory(j));
        if tracked { LosesTrash(origin, files, c, k); }
        files := files.(trash := files.trash - {j});
        trace := trace + [files];
      } else {
        if tracked { LosesTrash(origin, files, c, k); }
        assert files.trash - {j} == files.trash;
      }
    }

    /** Move a workspace into the trash, then remove it there; a leftover in the trash is removed too. */
    method RemoveWorkspace(c: Committed, i: nat, ghost origin: Files, ghost tracked: bool)
      returns (ghost trace: seq<Files>)
      requires WellFormed(c.prepared) && i < |c.prepared.Jobs()|
      requires !(c.prepared.Jobs()[i] in files.workspaces && c.prepared.Jobs()[i] in files.trash)
      requires tracked ==> Gone(files, c.prepared.Jobs()[i]) || Emptying(origin, files, c, i)
      modifies this`files
      ensures files == Emptied(old(files), {c.prepared.Jobs()[i]})
      ensures tracked && !Gone(old(files), c.prepared.Jobs()[i]) ==> Emptying(origin, files, c, i + 1)
      ensures Complete(trace, old(files), files)
      ensures tracked ==> forall d | d in trace :: d == old(files) || Interrupted(origin, d, c)
    {
      hide Complete;
      var j := c.prepared.Jobs()[i];
      trace := [files];
      Still(files);
      if j !in files.workspaces {
        if j in files.trash { trace := RemoveTrash(c, i, origin, tracked); }
        return;
      }
      if tracked { MovesWorkspace(origin, files, c, i); }
      Performs(trace, files, files, MoveWorkspace(j));
      files := files.(workspaces := files.workspaces - {j}, trash := files.trash[j := files.workspaces[j]]);
      trace := trace + [files];
      ghost var steps, moved := [], files;
      steps := RemoveTrash(c, i, origin, tracked);
      Follows(trace, steps, old(files), moved, files);
      trace := trace + steps;
    }

    /** All workspaces, in the order of the jobs. */
    method RemoveWorkspaces(c: Committed, ghost origin: Files, ghost tracked: bool)
      returns (ghost trace: seq<Files>)
      requires WellFormed(c.prepared)
      requires forall j | j in c.prepared.Jobs() :: !(j in files.workspaces && j in files.trash)
      requires tracked ==> Interrupted(origin, files, c)
      modifies this`files
      ensures files == Emptied(old(files), Elements(c.prepared.Jobs()))
      ensures tracked ==> exists m :: Unlinking(origin, files, c, m)
      ensures Complete(trace, old(files), files)
      ensures tracked ==> forall d | d in trace :: Interrupted(origin, d, c)
    {
      hide Complete;
      var jobs := c.prepared.Jobs();
      ghost var before := files;
      ghost var k: nat := 0;
      if tracked { k := SomeStage(origin, files, c); }
      trace := [files];
      Still(files);
      for i := 0 to |jobs|
        invariant files == Emptied(before, Elements(jobs[..i]))
        invariant tracked ==> i <= k && Stage(origin, files, c, k)
        invariant Complete(trace, before, files)
        invariant tracked ==> forall d | d in trace :: Interrupted(origin, d, c)
      {
        ElementsNext(jobs, i);
        ghost var now := files;
        if tracked {
          AtStage(origin, now, c, k, i);
          StageInterrupted(origin, now, c, k);
        }
        ghost var steps := RemoveWorkspace(c, i, origin, tracked);
        Follows(trace, steps, before, now, files);
        if tracked { k := NextStage(origin, now, files, c, k, i); }
        trace := trace + steps;
      }
      assert jobs[..|jobs|] == jobs;
      if tracked { AllGone(origin, files, c, k); }
    }

    /** All results, in the order of the jobs. */
    method UnlinkResults(c: Committed, ghost origin: Files, ghost tracked: bool) returns (ghost trace: seq<Files>)
      requires WellFormed(c.prepared)
      requires tracked ==> exists m :: Unlinking(origin, files, c, m)
      modifies this`files
      ensures files == old(files).(results := old(files).results - Elements(c.prepared.Jobs()))
      ensures Complete(trace, old(files), files)
      ensures tracked ==> forall d | d in trace :: Interrupted(origin, d, c)
    {
      hide Complete;
      var jobs := c.prepared.Jobs();
      ghost var before := files;
      ghost var m: nat := 0;
      if tracked { m :| Unlinking(origin, files, c, m); }
      trace := [files];
      Still(files);
      for i := 0 to |jobs|
        invariant files == before.(results := before.results - Elements(jobs[..i]))
        invariant tracked ==> i <= m && Unlinking(origin, files, c, m)
        invariant Complete(trace, before, files)
        invariant tracked ==> forall d | d in trace :: Interrupted(origin, d, c)
      {
        ElementsNext(jobs, i);
        if tracked { LosesResult(origin, files, c, i, m); }
        if jobs[i] in files.results {
          Performs(trace, before, files, UnlinkResult(jobs[i]));
          files := files.(results := files.results - {jobs[i]});
          trace := trace + [files];
        } else {
          assert files.results - {jobs[i]} == files.results;
        }
        if i == m { m := i + 1; }
      }
      assert jobs[..|jobs|] == jobs;
    }

    /** Consume a committed scratch tombstone, or go on with what an earlier attempt left. */
    method Consume(c: Committed, at: nat, ghost origin: Files) returns (ok: bool, ghost trace: seq<Files>)
      requires WellFormed(c.prepared)
      modifies this`files
      ensures ok <==> MayStart(old(files), c, policy) && AckFits(old(files), c, at, policy)
      ensures ok ==> files == Consumed(old(files), c, at)
      ensures !MayStart(old(files), c, policy) ==> files == old(files)
      ensures Complete(trace, old(files), files)
      ensures Begun(origin, old(files), c) ==>
        forall d | d in trace :: d == old(files) || Reached(origin, d, c) || (ok && d == files)
    {
      hide Complete;
      trace := [files];
      Still(files);
      if !MayStart(files, c, policy) { return false, trace; }
      ghost var tracked := Begun(origin, files, c);
      ghost var before := files;
      ghost var records := PublishRecords(c);
      if tracked { Starts(origin, before, c); RecordsReached(origin, before, c, records); }
      NoConflicts(before, c, policy);
      Follows(trace, records, before, before, files);
      trace := trace + records;
      ghost var intended := files;
      ghost var workspaces := RemoveWorkspaces(c, origin, tracked);
      Follows(trace, workspaces, before, intended, files);
      trace := trace + workspaces;
      ghost var emptied := files;
      ghost var results := UnlinkResults(c, origin, tracked);
      Follows(trace, results, before, emptied, files);
      trace := trace + results;
      if !AckFits(files, c, at, policy) { return false, trace; }
      Performs(trace, before, files, PublishAck(c.prepared, Ack(c.at, at)));
      files := files.(acks := files.acks[c.prepared := Ack(c.at, at)]);
      return true, trace + [files];
    }
  }

  function Elements(jobs: seq<Digest>): set<Digest>
  {
    set j | j in jobs
  }

  lemma ElementsNext(jobs: seq<Digest>, i: nat)
    requires i < |jobs|
    ensures Elements(jobs[..i + 1]) == Elements(jobs[..i]) + {jobs[i]}
  {
    forall j ensures j in Elements(jobs[..i + 1]) <==> j in Elements(jobs[..i]) || j == jobs[i] {
      assert j in Elements(jobs[..i + 1]) <==> j in jobs[..i] + [jobs[i]] by {
        assert jobs[..i + 1] == jobs[..i] + [jobs[i]];
      }
    }
  }

  function Emptied(f: Files, jobs: set<Digest>): Files
  {
    f.(workspaces := f.workspaces - jobs, trash := f.trash - jobs)
  }

  /** How far the workspaces have gone; results only start to go once all of them have. */
  ghost predicate Stage(origin: Files, f: Files, c: Committed, k: nat)
  {
    && k <= |c.prepared.Jobs()|
    && (Emptying(origin, f, c, k) || (k == |c.prepared.Jobs()| && exists m :: Unlinking(origin, f, c, m)))
  }

  lemma SomeStage(origin: Files, f: Files, c: Committed) returns (k: nat)
    requires Interrupted(origin, f, c)
    ensures Stage(origin, f, c, k)
  {
    if i: nat :| Emptying(origin, f, c, i) {
      k := i;
    } else {
      k := |c.prepared.Jobs()|;
    }
  }

  lemma AtStage(origin: Files, f: Files, c: Committed, k: nat, i: nat)
    requires Stage(origin, f, c, k) && i <= k && i < |c.prepared.Jobs()|
    ensures Gone(f, c.prepared.Jobs()[i]) || Emptying(origin, f, c, i)
  {
  }

  lemma NextStage(origin: Files, f: Files, g: Files, c: Committed, k: nat, i: nat) returns (n: nat)
    requires Stage(origin, f, c, k) && i <= k && i < |c.prepared.Jobs()|
    requires g == Emptied(f, {c.prepared.Jobs()[i]})
    requires !Gone(f, c.prepared.Jobs()[i]) ==> Emptying(origin, g, c, i + 1)
    ensures i < n && Stage(origin, g, c, n)
  {
    if Gone(f, c.prepared.Jobs()[i]) {
      assert g == f;
      if i == k { GoneAlready(origin, f, c, i); }
    }
    n := if i == k then i + 1 else k;
  }

  lemma StageInterrupted(origin: Files, f: Files, c: Committed, k: nat)
    requires Stage(origin, f, c, k)
    ensures Interrupted(origin, f, c)
  {
  }

  lemma AllGone(origin: Files, f: Files, c: Committed, k: nat)
    requires Stage(origin, f, c, k) && k == |c.prepared.Jobs()|
    ensures exists m :: Unlinking(origin, f, c, m)
  {
    if Emptying(origin, f, c, k) { assert Unlinking(origin, f, c, 0); }
  }

  /** With its records published, a fresh or an interrupted consumption is an interrupted one. */
  lemma Starts(origin: Files, f: Files, c: Committed)
    requires Begun(origin, f, c) && f.published <= Records(c)
    ensures Interrupted(origin, f.(published := Records(c)), c)
  {
    var g := f.(published := Records(c));
    if Interrupted(origin, f, c) {
      assert g == f;
    } else {
      FreshStart(origin, c);
      assert g == origin.(published := Records(c));
    }
  }

  lemma RecordsReached(origin: Files, f: Files, c: Committed, records: seq<Files>)
    requires Begun(origin, f, c) && f.published <= Records(c)
    requires forall d | d in records :: d == f.(published := Records(c)) || Barring(f, d, c)
    ensures forall d | d in records :: Reached(origin, d, c)
  {
    Starts(origin, f, c);
  }

  lemma NoConflicts(f: Files, c: Committed, policy: Policy)
    requires MayStart(f, c, policy)
    ensures forall j | j in c.prepared.Jobs() :: !(j in f.workspaces && j in f.trash)
  {
    forall j | j in c.prepared.Jobs() ensures !(j in f.workspaces && j in f.trash) {
      var i :| 0 <= i < |c.prepared.Jobs()| && c.prepared.Jobs()[i] == j;
      assert JobChecks(f, c, i, Started(f, c));
    }
  }

  lemma GoneAlready(origin: Files, f: Files, c: Committed, k: nat)
    requires k < |c.prepared.Jobs()| && Emptying(origin, f, c, k) && Gone(f, c.prepared.Jobs()[k])
    ensures Emptying(origin, f, c, k + 1)
  {
  }

  // ----- the file operations on an interrupted state

  lemma LosesLeaf(origin: Files, f: Files, c: Committed, k: nat, leaf: nat)
    requires WellFormed(c.prepared) && k < |c.prepared.Jobs()| && Emptying(origin, f, c, k)
    requires var j := c.prepared.Jobs()[k]; j !in f.workspaces && j in f.trash && leaf < |f.trash[j].rest|
    ensures var j := c.prepared.Jobs()[k];
      Emptying(origin, f.(trash := f.trash[j := Removed(f.trash[j], leaf)]), c, k)
  {
    var j := c.prepared.Jobs()[k];
    var g := f.(trash := f.trash[j := Removed(f.trash[j], leaf)]);
    if Moving(origin, f, j) { RemovedIsPart(f.trash[j], leaf, origin.workspaces[j]); }
    hide Removed, IsPart;
    assert Without(g, c.prepared.Jobs()) == Without(f, c.prepared.Jobs());
  }

  lemma RemovedIsPart(part: Tree, leaf: nat, whole: Tree)
    requires leaf < |part.rest| && IsPart(part, whole)
    ensures IsPart(Removed(part, leaf), whole)
  {
    assert part.rest == part.rest[..leaf] + [part.rest[leaf]] + part.rest[leaf + 1..];
  }

  lemma LosesTrash(origin: Files, f: Files, c: Committed, k: nat)
    requires WellFormed(c.prepared) && k < |c.prepared.Jobs()| && Emptying(origin, f, c, k)
    requires c.prepared.Jobs()[k] !in f.workspaces
    ensures Emptying(origin, f.(trash := f.trash - {c.prepared.Jobs()[k]}), c, k + 1)
  {
    var g := f.(trash := f.trash - {c.prepared.Jobs()[k]});
    assert Without(g, c.prepared.Jobs()) == Without(f, c.prepared.Jobs());
  }

  lemma MovesWorkspace(origin: Files, f: Files, c: Committed, k: nat)
    requires WellFormed(c.prepared) && k < |c.prepared.Jobs()| && Emptying(origin, f, c, k)
    requires c.prepared.Jobs()[k] in f.workspaces
    ensures var j := c.prepared.Jobs()[k];
      Emptying(origin, f.(workspaces := f.workspaces - {j}, trash := f.trash[j := f.workspaces[j]]), c, k)
  {
    var j := c.prepared.Jobs()[k];
    var g := f.(workspaces := f.workspaces - {j}, trash := f.trash[j := f.workspaces[j]]);
    assert Without(g, c.prepared.Jobs()) == Without(f, c.prepared.Jobs());
  }

  lemma LosesResult(origin: Files, f: Files, c: Committed, i: nat, m: nat)
    requires WellFormed(c.prepared) && i < |c.prepared.Jobs()| && i <= m && Unlinking(origin, f, c, m)
    ensures Unlinking(origin, f.(results := f.results - {c.prepared.Jobs()[i]}), c, if i == m then m + 1 else m)
  {
    var g := f.(results := f.results - {c.prepared.Jobs()[i]});
    assert Without(g, c.prepared.Jobs()) == Without(f, c.prepared.Jobs());
    if i < m { assert g.results == f.results; }
  }

  // ----- when a rerun goes through

  /** A lab leftover whose result says that the job succeeded must still be complete. */
  predicate LeftoversPass(f: Files, c: Committed)
  {
    c.prepared.target.LabScratch? ==>
      forall j | j in f.trash && Passed(f, j) :: f.trash[j].Names() == {Inputs, Schema, Message}
  }

  lemma PartNames(part: Tree, whole: Tree)
    requires IsPart(part, whole)
    ensures part.Names() <= whole.Names()
  {
    forall n | n in part.rest ensures n in whole.rest {
      assert n in multiset(part.rest);
    }
  }

  lemma FreshJob(origin: Files, c: Committed, i: nat)
    requires Fresh(origin, c) && i < |c.prepared.Jobs()|
    ensures var j := c.prepared.Jobs()[i];
      && j in origin.results && j !in origin.trash
      && (j in origin.workspaces ==>
            ValidWorkspace(c, i, origin.workspaces[j], origin.results[j])
            && origin.workspaces[j].Names() <= Roots(c, i))
  {
    assert JobChecks(origin, c, i, false);
  }

  /** While workspaces go, every job passes the checks of a rerun that a complete leftover passes. */
  lemma EmptyingJob(origin: Files, f: Files, c: Committed, k: nat, i: nat)
    requires Fresh(origin, c) && Emptying(origin, f, c, k) && i < |c.prepared.Jobs()|
    ensures JobChecks(f, c, i, true) <==>
      (c.prepared.Jobs()[i] in f.trash ==> ValidTrash(f, c, i, f.trash[c.prepared.Jobs()[i]]))
    ensures c.prepared.Jobs()[i] in f.trash ==> f.trash[c.prepared.Jobs()[i]].Names() <= Roots(c, i)
  {
    var j := c.prepared.Jobs()[i];
    FreshJob(origin, c, i);
    if j in f.trash {
      assert i == k && Moving(origin, f, j);
      PartNames(f.trash[j], origin.workspaces[j]);
    }
  }

  lemma OnlyTargetsInTrash(origin: Files, f: Files, c: Committed, j: Digest)
    requires Fresh(origin, c) && OnlyTargets(origin, f, c) && j in f.trash
    ensures j in c.prepared.Jobs()
  {
    assert j in c.prepared.Jobs() || j in Without(f, c.prepared.Jobs()).trash;
    assert j in c.prepared.Jobs() || j in Without(origin, c.prepared.Jobs()).trash;
  }

  lemma InterruptedPreflight(origin: Files, f: Files, c: Committed)
    requires Fresh(origin, c) && Interrupted(origin, f, c)
    ensures Preflight(f, c, true) <==> LeftoversPass(f, c)
  {
    forall j | j in f.trash ensures j in c.prepared.Jobs() {
      OnlyTargetsInTrash(origin, f, c, j);
    }
    if k: nat :| Emptying(origin, f, c, k) {
      forall i | 0 <= i < |c.prepared.Jobs()|
        ensures JobChecks(f, c, i, true) <==>
          (c.prepared.Jobs()[i] in f.trash ==> ValidTrash(f, c, i, f.trash[c.prepared.Jobs()[i]]))
        ensures c.prepared.Jobs()[i] in f.trash ==> f.trash[c.prepared.Jobs()[i]].Names() <= Roots(c, i)
      {
        EmptyingJob(origin, f, c, k, i);
      }
    } else {
      var m: nat :| Unlinking(origin, f, c, m);
      forall i | 0 <= i < |c.prepared.Jobs()| ensures Gone(f, c.prepared.Jobs()[i]) {
      }
    }
  }

  /**
   A rerun from any state that a crash leaves between the intent and the acknowledgement passes its
   checks exactly if the leftovers pass, the trash still fits the metadata limit, and the ledger takes
   the published barriers, of this tombstone and of all others; it then ends in the state in which
   the first run would have ended, but for the time that it acknowledges at.
   */
  lemma RerunConverges(origin: Files, f: Files, c: Committed, at: nat, later: nat, policy: Policy)
    requires Fresh(origin, c) && Interrupted(origin, f, c)
    ensures MayStart(f, c, policy) <==>
      && LeftoversPass(f, c) && Measured(f, c, policy).Within(policy.hard)
      && policy.othersFit && BarriersAreJobs(c.prepared)
    ensures AckFits(f, c, later, policy) <==> AckFits(origin, c, later, policy)
    ensures Consumed(f, c, later) ==
      Consumed(origin, c, at).(acks := origin.acks[c.prepared := Ack(c.at, later)])
  {
    InterruptedPreflight(origin, f, c);
    OnlyTargetsGone(origin, f, c);
    StartsWithAllRecords(f, c, policy);
    AllPublishedFit(f, c);
    hide Preflight, LeftoversPass, BarriersFit, BarriersAreJobs, MayStart, Measured, Interrupted, Fresh;
  }

  lemma OnlyTargetsGone(origin: Files, f: Files, c: Committed)
    requires Interrupted(origin, f, c)
    ensures f.published == Records(c) && f.acks == origin.acks
    ensures Without(f, c.prepared.Jobs()) == Without(origin, c.prepared.Jobs()).(published := Records(c))
  {
    assert OnlyTargets(origin, f, c);
    assert f.published == Without(f, c.prepared.Jobs()).published;
    assert f.acks == Without(f, c.prepared.Jobs()).acks == Without(origin, c.prepared.Jobs()).acks == origin.acks;
  }

  lemma StartsWithAllRecords(f: Files, c: Committed, policy: Policy)
    requires f.published == Records(c)
    ensures MayStart(f, c, policy) <==>
      Preflight(f, c, true) && policy.othersFit && BarriersFit(f, c) && Measured(f, c, policy).Within(policy.hard)
  {
    hide Preflight, BarriersFit;
    assert Times(0, Demand(policy.record, 2)) == NOTHING;
  }

  lemma AllPublishedFit(f: Files, c: Committed)
    requires f.published == Records(c)
    ensures BarriersFit(f, c) <==> BarriersAreJobs(c.prepared)
  {
    var barriers := c.prepared.Barriers();
    if BarriersFit(f, c) {
      forall j | j in barriers ensures j in c.prepared.Jobs() {
        var i :| 0 <= i < |barriers| && barriers[i] == j;
      }
    }
    if BarriersAreJobs(c.prepared) {
      forall i | 0 <= i < |barriers| ensures barriers[i] in c.prepared.Jobs() {
        assert barriers[i] in barriers;
      }
    }
  }

  /** With nothing in the trash the rerun fits whenever the first run did, and only the ledger can refuse it. */
  lemma EmptyTrashFits(origin: Files, f: Files, c: Committed, policy: Policy)
    requires Fresh(origin, c) && Interrupted(origin, f, c) && Fits(origin, c, policy)
    requires f.trash == map[]
    ensures Measured(f, c, policy).Within(policy.hard)
    ensures MayStart(f, c, policy) <==> policy.othersFit && BarriersAreJobs(c.prepared)
  {
    OnlyTargetsGone(origin, f, c);
    NoTrashHeld(f, c.prepared.Jobs());
    PublishedFits(origin.published, Records(c), policy.record);
    assert LeftoversPass(f, c);
    RerunConverges(origin, f, c, 0, 0, policy);
    hide MayStart, Interrupted, LeftoversPass, BarriersAreJobs, Preflight;
  }

  /** A restart between the barriers is a fresh start but for the room that is left and the barriers that are there. */
  lemma BarringRestartIff(origin: Files, f: Files, c: Committed, policy: Policy)
    requires Fresh(origin, c) && Barring(origin, f, c)
    ensures MayStart(f, c, policy) <==>
      && SoftOpen(Measured(f, c, policy), policy.soft) && SoftOpen(policy.acksHeld, policy.acksSoft)
      && Fits(f, c, policy)
      && policy.othersFit && BarriersFit(f, c)
  {
    forall i | 0 <= i < |c.prepared.Jobs()| ensures JobChecks(f, c, i, false) <==> JobChecks(origin, c, i, false) {
    }
  }

  /** The job of the sample failed without a workspace, and nothing of it has been consumed. */
  const FAILED_ONCE := Files(map[], map[], map[CP.OfBytes(0) := Failed], 0, map[])

  /**
   A lab execution whose dispatch is unknown, in room enough: its consumption starts, and after a crash
   just after the intent no rerun does, although nothing is in the trash and every leftover passes,
   because the report's barrier is under no job id.
   */
  lemma UnknownDispatchBlocksRerun(at: nat, policy: Policy)
    requires policy.othersFit && SoftOpen(policy.acksHeld, policy.acksSoft)
    requires var c := Committed(UNKNOWN_DISPATCH, at);
      Fits(FAILED_ONCE, c, policy) && SoftOpen(Measured(FAILED_ONCE, c, policy), policy.soft)
    ensures var c := Committed(UNKNOWN_DISPATCH, at);
      var f := FAILED_ONCE.(published := Records(c));
      && Fresh(FAILED_ONCE, c) && MayStart(FAILED_ONCE, c, policy)
      && Interrupted(FAILED_ONCE, f, c) && f.trash == map[] && LeftoversPass(f, c)
      && !MayStart(f, c, policy)
  {
    var c := Committed(UNKNOWN_DISPATCH, at);
    UnknownDispatchIsWellFormed();
    assert c.prepared.Jobs() == [CP.OfBytes(0)] && CP.OfBytes(0) in FAILED_ONCE.results;
    assert JobChecks(FAILED_ONCE, c, 0, false);
    FreshStart(FAILED_ONCE, c);
    RerunConverges(FAILED_ONCE, FAILED_ONCE.(published := Records(c)), c, 0, 0, policy);
  }

  /** What all records hold is at most what the first ones held and the others demanded. */
  lemma {:induction false} PublishedFits(m: nat, n: nat, record: nat)
    requires m <= n
    ensures Times(n, Demand(record, 1)).Within(Times(m, Demand(record, 1)).Plus(Times(n - m, Demand(record, 2))))
  {
    TimesAdd(m, n - m, Demand(record, 1));
    TimesMonotone(n - m, Demand(record, 1), Demand(record, 2));
  }

  lemma NoTrashOf(f: Files, j: Digest)
    requires f.trash == map[]
    ensures TrashOf(f, j) == NOTHING
  {
  }

  lemma {:induction false} NoTrashHeld(f: Files, jobs: seq<Digest>)
    requires f.trash == map[]
    ensures TrashHeld(f, jobs) == NOTHING
  {
    hide TrashOf;
    if jobs != [] {
      NoTrashOf(f, jobs[0]);
      NoTrashHeld(f, jobs[1..]);
    }
  }

  lemma {:induction false} TimesAdd(m: nat, n: nat, d: Demand)
    ensures Times(m + n, d) == Times(m, d).Plus(Times(n, d))
  {
    if m != 0 { TimesAdd(m - 1, n, d); }
  }

  lemma {:induction false} TimesMonotone(n: nat, d: Demand, e: Demand)
    requires d.Within(e)
    ensures Times(n, d).Within(Times(n, e))
  {
    if n != 0 { TimesMonotone(n - 1, d, e); }
  }

  /** The state between the rename of the first workspace and the first removal in the trash. */
  function FirstMoved(f: Files, c: Committed): Files
    requires c.prepared.Jobs() != [] && c.prepared.Jobs()[0] in f.workspaces
  {
    var j := c.prepared.Jobs()[0];
    f.(published := Records(c), workspaces := f.workspaces - {j}, trash := f.trash[j := f.workspaces[j]])
  }

  /**
   The limit is checked before the trash is emptied: a crash just after the first workspace has been
   moved, if that workspace alone exceeds the metadata limit, refuses every rerun.
   */
  lemma BigWorkspaceBlocksRerun(origin: Files, c: Committed, policy: Policy)
    requires WellFormed(c.prepared) && Fresh(origin, c) && c.prepared.Jobs() != []
    requires c.prepared.Jobs()[0] in origin.workspaces
    requires !Cost(origin.workspaces[c.prepared.Jobs()[0]].rest).Within(policy.hard)
    ensures Interrupted(origin, FirstMoved(origin, c), c)
    ensures !MayStart(FirstMoved(origin, c), c, policy)
  {
    var j, f := c.prepared.Jobs()[0], FirstMoved(origin, c);
    FreshStart(origin, c);
    MovesWorkspace(origin, origin.(published := Records(c)), c, 0);
    assert Emptying(origin, f, c, 0);
    RerunConverges(origin, f, c, 0, 0, policy);
    assert f.trash[j] == origin.workspaces[j];
  }

  lemma FreshStart(origin: Files, c: Committed)
    requires Fresh(origin, c)
    ensures Emptying(origin, origin.(published := Records(c)), c, 0)
  {
    var g := origin.(published := Records(c));
    forall i | 0 <= i < |c.prepared.Jobs()| ensures Untouched(origin, g, c.prepared.Jobs()[i]) {
      assert JobChecks(origin, c, i, false);
    }
  }
}
