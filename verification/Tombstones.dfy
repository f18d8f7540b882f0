/** Tombstones, their committed form and their acknowledgement. */
module Tombstones {
  import opened Options
  import opened CentralProtocol

  /** Identifiers are digests; the retention protocol only compares them. */
  type Digest = Text

  datatype DispatchRecord = DispatchRecord(id: Digest, digest: Digest)

  datatype Target =
    | CentralScratch(jobs: seq<Digest>)
    | LabScratch(jobs: seq<Digest>, barriers: seq<Digest>, dispatch: Option<DispatchRecord>)
    | Evidence(bundle: Digest)

  /**
   A tombstone's identifier is the digest of all its other fields, so the record itself stands
   for the identifier wherever the code uses one as a file name.
   */
  datatype Tombstone = Tombstone(task: Task, eligibleAt: nat, target: Target, results: seq<Digest>) {
    function Jobs(): seq<Digest>
    {
      if target.Evidence? then [] else target.jobs
    }

    function Barriers(): seq<Digest>
    {
      match target
      case CentralScratch(jobs) => jobs
      case LabScratch(_, barriers, _) => barriers
      case Evidence(_) => []
    }

    function Dispatch(): Option<Digest>
    {
      if target.LabScratch? && target.dispatch.Some? then Some(target.dispatch.value.id) else None
    }
  }

  predicate AllDigests(s: seq<Digest>)
  {
    forall d | d in s :: IsDigest(d)
  }

  predicate LabOk(jobs: seq<Digest>, barriers: seq<Digest>, dispatch: Option<DispatchRecord>)
  {
    && 1 <= |jobs| <= |barriers| <= 2
    && Unique(barriers) && AllDigests(barriers)
    && barriers[..|jobs|] == jobs
    && (dispatch.Some? ==>
          && dispatch.value.id == barriers[|barriers| - 1]
          && IsDigest(dispatch.value.digest))
  }

  /** What the decoder of prepared tombstones demands. */
  predicate WellFormed(t: Tombstone)
  {
    && Genuine(t.task)
    && 1 <= |t.results| <= 3 && AllDigests(t.results)
    && match t.target
       case CentralScratch(jobs) =>
         1 <= |jobs| <= 3 && Unique(jobs) && AllDigests(jobs) && |t.results| == |jobs|
       case LabScratch(jobs, barriers, dispatch) =>
         LabOk(jobs, barriers, dispatch) && |t.results| == |jobs|
       case Evidence(bundle) => IsDigest(bundle)
  }

  datatype Committed = Committed(prepared: Tombstone, at: nat)

  datatype Ack = Ack(committedAt: nat, at: nat)

  /** Every job has a barrier, and so has the dispatch record. */
  lemma BarriersCover(t: Tombstone)
    requires WellFormed(t)
    ensures forall j | j in t.Jobs() :: j in t.Barriers()
    ensures t.Dispatch().Some? ==> t.Dispatch().value in t.Barriers()
  {
    if t.target.LabScratch? {
      forall j | j in t.Jobs() ensures j in t.Barriers() {
        var i :| 0 <= i < |t.Jobs()| && t.Jobs()[i] == j;
        assert t.Barriers()[i] == j;
      }
    }
  }

  /** No barrier goes beyond the jobs. */
  predicate BarriersAreJobs(t: Tombstone)
  {
    forall j | j in t.Barriers() :: j in t.Jobs()
  }

  /** That is, there are as many barriers as jobs. */
  lemma BarriersAreJobsIff(t: Tombstone)
    requires WellFormed(t)
    ensures BarriersAreJobs(t) <==> |t.Barriers()| == |t.Jobs()|
  {
    if t.target.LabScratch? {
      var jobs, barriers := t.Jobs(), t.Barriers();
      assert barriers[..|jobs|] == jobs;
      if |barriers| == |jobs| {
        assert barriers == jobs;
      } else {
        assert barriers[|jobs|] in barriers;
        forall j | j in jobs ensures j != barriers[|jobs|] {
          var i :| 0 <= i < |jobs| && jobs[i] == j;
          assert barriers[i] == j;
        }
      }
    }
  }

  /** A lab execution that ended with its dispatch unknown: the report has a barrier, a dispatch record and no job. */
  const UNKNOWN_DISPATCH :=
    Tombstone(
      Task(EventId(Plain(0), Plain(0)), Plain(0), Plain(0)), 0,
      LabScratch([OfBytes(0)], [OfBytes(0), OfBytes(1)], Some(DispatchRecord(OfBytes(1), OfBytes(3)))), [OfBytes(2)])

  lemma UnknownDispatchIsWellFormed()
    ensures WellFormed(UNKNOWN_DISPATCH) && !BarriersAreJobs(UNKNOWN_DISPATCH)
  {
    BarriersAreJobsIff(UNKNOWN_DISPATCH);
  }
}
