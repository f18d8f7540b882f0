/**
 The controller's side of one acknowledged tombstone: deletion marker, job trees, dispatch record,
 receipt, clean-up, one file operation after another, with every state a crash can leave behind.
 The publication of one record is one operation here; what a crash inside the publication of the
 marker or of the receipt does to the next attempt is `Attempts.ClearingRetryIff`.
 */
module ControllerReplay {
  import opened Options
  import opened Tombstones
  import opened StorageQuota
  import opened Traces

  datatype Tree = Whole | Partial

  /** The files of one tombstone; the flags say which of its records are there. */
  datatype Files = Files(
    jobs: map<Digest, Tree>,
    dispatches: set<Digest>,
    prepared: bool,
    committed: bool,
    marker: bool,
    receipt: bool)

  /** The limit of the controller's metadata root, what else it holds, whether that is sound, and the record sizes. */
  datatype Policy = Policy(base: Demand, hard: Demand, marking: nat, receipting: nat, othersFit: bool)

  predicate IsScratch(c: Committed)
  {
    !c.prepared.target.Evidence?
  }

  predicate JobsPass(f: Files, c: Committed)
  {
    && (forall j | j in c.prepared.Jobs() :: if j in f.jobs then f.jobs[j] == Whole else f.marker)
    && (c.prepared.Dispatch().Some? && !f.marker ==> c.prepared.Dispatch().value in f.dispatches)
  }

  function Held(f: Files, policy: Policy): Demand
  {
    if f.marker then policy.base.Plus(Demand(policy.marking, 1)) else policy.base
  }

  /** The receipt, and for jobs that are not marked yet the marker. */
  function Demanded(f: Files, c: Committed, policy: Policy): Demand
  {
    if IsScratch(c) && !f.marker then Demand(policy.marking + policy.receipting, 4) else Demand(policy.receipting, 2)
  }

  predicate MayClear(f: Files, c: Committed, policy: Policy)
  {
    || f.receipt
    || (f.committed && JobsPass(f, c) && policy.othersFit
        && Admits(Held(f, policy), Demanded(f, c, policy), policy.hard))
  }

  function Deleted(f: Files, jobs: seq<Digest>): Files
  {
    f.(jobs := map j | j in f.jobs && j !in jobs :: f.jobs[j])
  }

  /** Scratch deletions are announced by a marker; evidence has no jobs to delete. */
  function WithMarker(f: Files, c: Committed): Files
  {
    if IsScratch(c) then f.(marker := true) else f
  }

  function Undispatched(f: Files, c: Committed): Files
  {
    if c.prepared.Dispatch().Some? then f.(dispatches := f.dispatches - {c.prepared.Dispatch().value}) else f
  }

  function CleanedUp(f: Files): Files
  {
    f.(prepared := false, committed := false, marker := false)
  }

  /** Every job and the dispatch record gone, the receipt there, nothing else left. */
  function Cleared(f: Files, c: Committed): Files
  {
    CleanedUp(Undispatched(Deleted(f, c.prepared.Jobs()), c).(receipt := true))
  }

  // ----- what a crash leaves

  /** An acknowledged tombstone that nobody has started to clear. */
  predicate Fresh(f: Files, c: Committed)
  {
    f.committed && !f.marker && !f.receipt && JobsPass(f, c)
  }

  /** The first `k` jobs are gone, job `k` may be partly gone; the dispatch record goes after all of them. */
  predicate DeletingAt(origin: Files, f: Files, c: Committed, k: nat)
  {
    var jobs := c.prepared.Jobs();
    && k <= |jobs|
    && f == origin.(marker := IsScratch(c), jobs := f.jobs, dispatches := f.dispatches)
    && (f.dispatches == origin.dispatches || (k == |jobs| && f.dispatches == Undispatched(origin, c).dispatches))
    && (forall i | 0 <= i < k :: jobs[i] !in f.jobs)
    && (forall i | k < i < |jobs| :: jobs[i] in f.jobs && f.jobs[jobs[i]] == Whole)
    && Deleted(f, jobs).jobs == Deleted(origin, jobs).jobs
  }

  /** All targets gone, the receipt just published. */
  function Receipted(origin: Files, c: Committed): Files
  {
    Undispatched(Deleted(origin, c.prepared.Jobs()), c).(marker := IsScratch(c), receipt := true)
  }

  /** From the receipt on the states differ in single flags. */
  predicate Finishing(origin: Files, f: Files, c: Committed)
  {
    var r := Receipted(origin, c);
    f == r || f == r.(prepared := false) || f == r.(prepared := false, committed := false) || f == CleanedUp(r)
  }

  /** The states of a clearing from the marker on. */
  ghost predicate Interrupted(origin: Files, f: Files, c: Committed)
  {
    (exists k: nat :: DeletingAt(origin, f, c, k)) || Finishing(origin, f, c)
  }

  /** A clearing of `origin` that has not started or has been interrupted. */
  ghost predicate Begun(origin: Files, f: Files, c: Committed)
  {
    Fresh(origin, c) && (f == origin || Interrupted(origin, f, c))
  }

  // ----- single file operations

  /** Deleting a job tree takes many operations; all that counts of them is the first and the last. */
  datatype Operation =
    | PublishMarker
    | BreakJob(job: Digest)
    | RemoveJob(job: Digest)
    | UnlinkDispatch(id: Digest)
    | PublishReceipt
    | UnlinkPrepared
    | UnlinkCommitted
    | UnlinkMarker

  predicate Possible(f: Files, op: Operation)
  {
    match op
    case BreakJob(j) => j in f.jobs && f.jobs[j] == Whole
    case RemoveJob(j) => j in f.jobs && f.jobs[j] == Partial
    case UnlinkDispatch(id) => id in f.dispatches
    case _ => true
  }

  function Performed(f: Files, op: Operation): Files
    requires Possible(f, op)
  {
    match op
    case PublishMarker => f.(marker := true)
    case BreakJob(j) => f.(jobs := f.jobs[j := Partial])
    case RemoveJob(j) => f.(jobs := f.jobs - {j})
    case UnlinkDispatch(id) => f.(dispatches := f.dispatches - {id})
    case PublishReceipt => f.(receipt := true)
    case UnlinkPrepared => f.(prepared := false)
    case UnlinkCommitted => f.(committed := false)
    case UnlinkMarker => f.(marker := false)
  }

  ghost predicate OneOperation(f: Files, g: Files)
  {
    exists op :: Possible(f, op) && g == Performed(f, op)
  }

  /** Every file operation from one state to the other is in the trace. */
  ghost predicate Complete(trace: seq<Files>, from: Files, to: Files)
  {
    Connected(trace, from, to, OneOperation)
  }

  lemma Still(f: Files)
    ensures Complete([f], f, f)
  {
    Stands(f, OneOperation);
  }

  lemma Performs(trace: seq<Files>, from: Files, to: Files, op: Operation)
    requires Complete(trace, from, to) && Possible(to, op)
    ensures Complete(trace + [Performed(to, op)], from, Performed(to, op))
  {
    assert OneOperation(to, Performed(to, op));
    Continues(trace, from, to, Performed(to, op), OneOperation);
  }

  lemma Follows(a: seq<Files>, b: seq<Files>, from: Files, middle: Files, to: Files)
    requires Complete(a, from, middle) && Complete(b, middle, to)
    ensures Complete(a + b, from, to)
  {
    Joins(a, b, from, middle, to, OneOperation);
  }

  class ControllerRetention {
    var files: Files
    const policy: Policy

    constructor (f: Files, p: Policy)
      ensures files == f && policy == p
    {
      files, policy := f, p;
    }

    /** Delete one job tree, which takes more than one operation. */
    method DeleteJob(c: Committed, i: nat, ghost origin: Files, ghost tracked: bool, ghost k: nat)
      returns (ghost trace: seq<Files>)
      requires WellFormed(c.prepared) && i < |c.prepared.Jobs()| && i <= k
      requires tracked ==> DeletingAt(origin, files, c, k)
      modifies this`files
      ensures files == old(files).(jobs := old(files).jobs - {c.prepared.Jobs()[i]})
      ensures tracked ==> DeletingAt(origin, files, c, if i == k then k + 1 else k)
      ensures Complete(trace, old(files), files)
      ensures tracked ==> forall d | d in trace :: Interrupted(origin, d, c)
    {
      hide Complete;
      var j := c.prepared.Jobs()[i];
      trace := [files];
      Still(files);
      if j !in files.jobs {
        if tracked { JobLost(origin, files, c, i, k); }
        return;
      }
      if files.jobs[j] == Whole {
        if tracked { JobBroken(origin, files, c, i, k); }
        Performs(trace, files, files, BreakJob(j));
        files := files.(jobs := files.jobs[j := Partial]);
        trace := trace + [files];
      }
      Performs(trace, old(files), files, RemoveJob(j));
      if tracked { JobLost(origin, files, c, i, k); }
      files := files.(jobs := files.jobs - {j});
      trace := trace + [files];
    }

    method DeleteJobs(c: Committed, ghost origin: Files, ghost tracked: bool) returns (ghost trace: seq<Files>)
      requires WellFormed(c.prepared)
      requires tracked ==> exists k: nat :: DeletingAt(origin, files, c, k)
      modifies this`files
      ensures files == Deleted(old(files), c.prepared.Jobs())
      ensures tracked ==> DeletingAt(origin, files, c, |c.prepared.Jobs()|)
      ensures Complete(trace, old(files), files)
      ensures tracked ==> forall d | d in trace :: Interrupted(origin, d, c)
    {
      hide Complete;
      var jobs := c.prepared.Jobs();
      ghost var before := files;
      ghost var k: nat := |jobs|;
      if tracked { k :| DeletingAt(origin, files, c, k); }
      trace := [files];
      Still(files);
      assert Deleted(before, jobs[..0]) == before;
      for i := 0 to |jobs|
        invariant files == Deleted(before, jobs[..i])
        invariant i <= k <= |jobs|
        invariant tracked ==> DeletingAt(origin, files, c, k)
        invariant Complete(trace, before, files)
        invariant tracked ==> forall d | d in trace :: Interrupted(origin, d, c)
      {
        DeletedNext(before, jobs, i);
        ghost var middle := files;
        ghost var steps := DeleteJob(c, i, origin, tracked, k);
        if i == k { k := k + 1; }
        Follows(trace, steps, before, middle, files);
        trace := trace + steps;
      }
      assert jobs[..|jobs|] == jobs;
    }

    /** Unlink the prepared record, the committed record and the marker. */
    method CleanUp() returns (ghost trace: seq<Files>)
      modifies this`files
      ensures files == CleanedUp(old(files))
      ensures trace == [old(files), old(files).(prepared := false),
                        old(files).(prepared := false, committed := false), files]
      ensures Complete(trace, old(files), files)
    {
      hide Complete;
      trace := [files];
      Still(files);
      Performs(trace, old(files), files, UnlinkPrepared);
      files := files.(prepared := false);
      trace := trace + [files];
      Performs(trace, old(files), files, UnlinkCommitted);
      files := files.(committed := false);
      trace := trace + [files];
      Performs(trace, old(files), files, UnlinkMarker);
      files := files.(marker := false);
      trace := trace + [files];
    }

    /** Delete the dispatch record, publish the receipt, clean up. */
    method Finish(c: Committed, ghost origin: Files, ghost tracked: bool) returns (ghost trace: seq<Files>)
      requires tracked ==> DeletingAt(origin, files, c, |c.prepared.Jobs()|)
      modifies this`files
      ensures files == CleanedUp(Undispatched(old(files), c).(receipt := true))
      ensures Complete(trace, old(files), files)
      ensures tracked ==> forall d | d in trace :: Interrupted(origin, d, c)
    {
      hide Complete;
      trace := [files];
      Still(files);
      if tracked { Receipts(origin, files, c); }
      if c.prepared.Dispatch().Some? && c.prepared.Dispatch().value in files.dispatches {
        Performs(trace, files, files, UnlinkDispatch(c.prepared.Dispatch().value));
      }
      if Undispatched(files, c) != files {
        files := Undispatched(files, c);
        trace := trace + [files];
      }
      Performs(trace, old(files), files, PublishReceipt);
      files := files.(receipt := true);
      trace := trace + [files];
      ghost var receipted := files;
      ghost var cleaned := CleanUp();
      Follows(trace, cleaned, old(files), receipted, files);
      trace := trace + cleaned;
    }

    /** Clear an acknowledged tombstone, or go on with what an earlier attempt left. */
    method ConsumeAck(c: Committed, ghost origin: Files) returns (ok: bool, ghost trace: seq<Files>)
      requires WellFormed(c.prepared)
      modifies this`files
      ensures ok <==> MayClear(old(files), c, policy)
      ensures ok ==> files == if old(files).receipt then CleanedUp(old(files)) else Cleared(old(files), c)
      ensures !ok ==> files == old(files)
      ensures Complete(trace, old(files), files)
      ensures Begun(origin, old(files), c) ==> forall d | d in trace :: d == old(files) || Interrupted(origin, d, c)
    {
      hide Complete;
      trace := [files];
      Still(files);
      if files.receipt {
        if Begun(origin, files, c) { Cleans(origin, files, c); }
        ghost var cleaned := CleanUp();
        Follows(trace, cleaned, old(files), old(files), files);
        return true, trace + cleaned;
      }
      if !MayClear(files, c, policy) { return false, trace; }
      ghost var tracked := Begun(origin, files, c);
      if tracked { Marked(origin, files, c); }
      if IsScratch(c) {
        Performs(trace, files, files, PublishMarker);
        files := files.(marker := true);
        trace := trace + [files];
      }
      ghost var marked := files;
      ghost var deletions := DeleteJobs(c, origin, tracked);
      Follows(trace, deletions, old(files), marked, files);
      trace := trace + deletions;
      ghost var deleted := files;
      ghost var end := Finish(c, origin, tracked);
      Follows(trace, end, old(files), deleted, files);
      return true, trace + end;
    }
  }

  lemma DeletedNext(f: Files, jobs: seq<Digest>, i: nat)
    requires i < |jobs|
    ensures Deleted(f, jobs[..i + 1]) == Deleted(f, jobs[..i]).(jobs := Deleted(f, jobs[..i]).jobs - {jobs[i]})
  {
    assert jobs[..i + 1] == jobs[..i] + [jobs[i]];
  }

  lemma JobLost(origin: Files, f: Files, c: Committed, i: nat, k: nat)
    requires WellFormed(c.prepared) && i < |c.prepared.Jobs()| && i <= k && DeletingAt(origin, f, c, k)
    ensures var g := f.(jobs := f.jobs - {c.prepared.Jobs()[i]});
      DeletingAt(origin, g, c, if i == k then k + 1 else k)
  {
    var g := f.(jobs := f.jobs - {c.prepared.Jobs()[i]});
    assert Deleted(g, c.prepared.Jobs()) == Deleted(f, c.prepared.Jobs());
    if i < k { assert g == f; }
  }

  lemma JobBroken(origin: Files, f: Files, c: Committed, i: nat, k: nat)
    requires WellFormed(c.prepared) && i < |c.prepared.Jobs()| && i <= k && DeletingAt(origin, f, c, k)
    requires c.prepared.Jobs()[i] in f.jobs
    ensures i == k && DeletingAt(origin, f.(jobs := f.jobs[c.prepared.Jobs()[i] := Partial]), c, k)
  {
    var g := f.(jobs := f.jobs[c.prepared.Jobs()[i] := Partial]);
    assert Deleted(g, c.prepared.Jobs()) == Deleted(f, c.prepared.Jobs());
  }

  /** With its marker, a fresh or an interrupted clearing without a receipt is one that deletes. */
  lemma Marked(origin: Files, f: Files, c: Committed)
    requires Begun(origin, f, c) && !f.receipt
    ensures exists k: nat :: DeletingAt(origin, WithMarker(f, c), c, k)
  {
    if k: nat :| DeletingAt(origin, f, c, k) {
      assert WithMarker(f, c) == f;
    } else {
      assert !Finishing(origin, f, c);
      assert DeletingAt(origin, WithMarker(f, c), c, 0);
    }
  }

  lemma Cleans(origin: Files, f: Files, c: Committed)
    requires Begun(origin, f, c) && f.receipt
    ensures Interrupted(origin, f.(prepared := false), c)
    ensures Interrupted(origin, f.(prepared := false, committed := false), c)
    ensures Interrupted(origin, CleanedUp(f), c)
  {
    assert Finishing(origin, f, c);
  }

  /** Once all jobs are gone, the dispatch record and the receipt lead to the finishing states. */
  lemma Receipts(origin: Files, f: Files, c: Committed)
    requires DeletingAt(origin, f, c, |c.prepared.Jobs()|)
    ensures DeletingAt(origin, Undispatched(f, c), c, |c.prepared.Jobs()|)
    ensures Undispatched(f, c).(receipt := true) == Receipted(origin, c)
  {
    assert Deleted(f, c.prepared.Jobs()).jobs == f.jobs;
  }

  // ----- when a rerun goes through

  /** No job tree was left half deleted. */
  predicate NoPartialJob(f: Files, c: Committed)
  {
    forall j | j in c.prepared.Jobs() && j in f.jobs :: f.jobs[j] == Whole
  }

  /**
   A rerun from any state that a crash leaves from the marker on is admitted and ends in the state
   in which the first run would have ended, exactly if the crash did not split a job tree.
   */
  lemma RerunConverges(origin: Files, f: Files, c: Committed, policy: Policy)
    requires WellFormed(c.prepared) && Fresh(origin, c) && MayClear(origin, c, policy) && Interrupted(origin, f, c)
    ensures MayClear(f, c, policy) <==> NoPartialJob(f, c)
    ensures (if f.receipt then CleanedUp(f) else Cleared(f, c)) == Cleared(origin, c)
  {
    if Finishing(origin, f, c) {
      assert Undispatched(Deleted(origin, c.prepared.Jobs()), c).(marker := IsScratch(c), receipt := true) == Receipted(origin, c);
    } else {
      var k: nat :| DeletingAt(origin, f, c, k);
      DeletingRerun(origin, f, c, k, policy);
    }
  }

  lemma DeletingRerun(origin: Files, f: Files, c: Committed, k: nat, policy: Policy)
    requires WellFormed(c.prepared) && Fresh(origin, c) && MayClear(origin, c, policy) && DeletingAt(origin, f, c, k)
    ensures MayClear(f, c, policy) <==> NoPartialJob(f, c)
    ensures !f.receipt && Cleared(f, c) == Cleared(origin, c)
  {
    assert Deleted(f, c.prepared.Jobs()).jobs == Deleted(origin, c.prepared.Jobs()).jobs;
  }
}
