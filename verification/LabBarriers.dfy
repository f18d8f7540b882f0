/**
 The barriers of a tombstone with its committed record, in the controller's shared root, or with its
 intent, in the agent's private root, as one publication group; and the check of the ledger that the
 next group of that root meets.
 */
module LabBarriers {
  import opened Options
  import opened Inodes
  import opened StorageQuota
  import opened Publication
  import opened PublicationGroup
  import opened PublicationRetry
  import CP = CentralProtocol
  import T = Tombstones

  /** How names and canonical texts are written; different digests have different names. */
  datatype Coding = Coding(
    fileOf: T.Digest -> RecordId, idOf: T.Tombstone -> RecordId,
    text: T.Committed -> Bytes, decode: Bytes -> Option<T.Committed>)

  ghost predicate Faithful(k: Coding)
  {
    && (forall c: T.Committed | T.WellFormed(c.prepared) :: k.decode(k.text(c)) == Some(c))
    && (forall i, j | k.fileOf(i) == k.fileOf(j) :: i == j)
  }

  /** The shared root of the controller, or the private root of the agent. */
  datatype Side = Controller | Agent {
    function Barriers(): Ledger
    {
      if this.Controller? then Ledger.Barriers else AgentBarriers
    }

    function Records(): Ledger
    {
      if this.Controller? then Ledger.Committed else Intents
    }
  }

  /** A committed record or an intent stands under its own identifier; a barrier under one of the record's job ids. */
  predicate Accepts(k: Coding, ledger: Ledger, file: RecordId, raw: Bytes)
  {
    var c := k.decode(raw);
    && c.Some?
    && match ledger
       case Committed => file == k.idOf(c.value.prepared)
       case Intents => file == k.idOf(c.value.prepared)
       case Barriers => IsJobFile(k, c.value.prepared, file)
       case AgentBarriers => IsJobFile(k, c.value.prepared, file)
       case _ => false
  }

  predicate IsJobFile(k: Coding, t: T.Tombstone, file: RecordId)
  {
    exists i | 0 <= i < |t.Jobs()| :: k.fileOf(t.Jobs()[i]) == file
  }

  function LedgerDecoder(k: Coding): Decoder
  {
    (ledger: Ledger, file: RecordId, raw: Bytes) => Accepts(k, ledger, file, raw)
  }

  function BarrierEntries(k: Coding, c: T.Committed, barriers: seq<T.Digest>, side: Side): (es: seq<Entry>)
    ensures |es| == |barriers|
    ensures forall i | 0 <= i < |es| :: es[i] == Entry(side.Barriers(), k.fileOf(barriers[i]), k.text(c))
  {
    if barriers == [] then []
    else [Entry(side.Barriers(), k.fileOf(barriers[0]), k.text(c))] + BarrierEntries(k, c, barriers[1..], side)
  }

  /** Every barrier, then the committed record or the intent. */
  function Group(k: Coding, c: T.Committed, side: Side): seq<Entry>
  {
    BarrierEntries(k, c, c.prepared.Barriers(), side) + [Entry(side.Records(), k.idOf(c.prepared), k.text(c))]
  }

  lemma BarrierFits(k: Coding, c: T.Committed, j: T.Digest, side: Side)
    requires Faithful(k) && T.WellFormed(c.prepared)
    ensures Accepts(k, side.Barriers(), k.fileOf(j), k.text(c)) <==> j in c.prepared.Jobs()
    ensures Accepts(k, side.Records(), k.idOf(c.prepared), k.text(c))
  {
    assert k.decode(k.text(c)) == Some(c);
    hide T.WellFormed;
  }

  lemma {:induction false} GroupIsDistinct(k: Coding, c: T.Committed, side: Side)
    requires Faithful(k) && T.WellFormed(c.prepared)
    ensures Distinct(Group(k, c, side))
  {
    var es, barriers := Group(k, c, side), c.prepared.Barriers();
    assert CP.Unique(barriers);
    forall i, j | 0 <= i < j < |es| ensures es[i].Target() != es[j].Target() {
      if j < |barriers| { assert barriers[i] != barriers[j]; }
    }
  }

  /** The first group of an empty ledger goes through whenever it fits the limit. */
  lemma {:induction false} FirstGroupGoesThrough(
      k: Coding, c: T.Committed, side: Side, limit: Demand, block: Block)
    requires |k.text(c)| <= MAX_METADATA && Demands(EMPTY, Group(k, c, side), block).Within(limit)
    ensures MayPublishGroup(EMPTY, Group(k, c, side), LedgerDecoder(k), NOTHING, limit, block)
  {
    var es := Group(k, c, side);
    EmptyIsClean(es, LedgerDecoder(k));
    forall e | e in es ensures |e.raw| <= MAX_METADATA {
    }
    assert Held(EMPTY, block) == NOTHING;
  }

  lemma {:induction false} AllPublished(r: Root, d: Root, es: seq<Entry>, block: Block)
    requires GroupMidway(r, d, es, |es|, block)
    ensures forall e | e in es :: StatusOf(d, e) == Published
  {
    hide StatusOf, GroupFramed, Held, Demands;
    forall e | e in es ensures StatusOf(d, e) == Published {
      var i :| 0 <= i < |es| && es[i] == e;
    }
  }

  lemma {:induction false} GroupFitsIff(k: Coding, c: T.Committed, side: Side, d: Root)
    requires Faithful(k) && T.WellFormed(c.prepared)
    requires forall e | e in Group(k, c, side) :: StatusOf(d, e) == Published
    ensures AllFit(d, Group(k, c, side), LedgerDecoder(k)) <==> T.BarriersAreJobs(c.prepared)
  {
    var es, fits, barriers := Group(k, c, side), LedgerDecoder(k), c.prepared.Barriers();
    hide StatusOf, T.WellFormed, Accepts, Faithful;
    forall i | 0 <= i < |barriers|
      ensures es[i] in es && fits(es[i].parent, es[i].file, es[i].raw) <==> barriers[i] in c.prepared.Jobs()
    {
      BarrierFits(k, c, barriers[i], side);
    }
    assert fits(es[|barriers|].parent, es[|barriers|].file, es[|barriers|].raw) by {
      BarrierFits(k, c, c.prepared.task.event, side);
    }
    if T.BarriersAreJobs(c.prepared) {
      forall e | e in es ensures fits(e.parent, e.file, e.raw) {
        var i :| 0 <= i < |es| && es[i] == e;
        if i < |barriers| { assert barriers[i] in barriers; }
      }
    } else {
      var j :| j in barriers && j !in c.prepared.Jobs();
      var i :| 0 <= i < |barriers| && barriers[i] == j;
      assert es[i] in es && !fits(es[i].parent, es[i].file, es[i].raw);
    }
  }

  lemma {:induction false} UnfitGroupCloses(
      k: Coding, d: Root, c: T.Committed, side: Side, es: seq<Entry>, held: Demand, bound: Demand, block: Block)
    requires forall e | e in Group(k, c, side) :: StatusOf(d, e) == Published
    requires !AllFit(d, Group(k, c, side), LedgerDecoder(k))
    ensures !MayPublishGroup(d, es, LedgerDecoder(k), held, bound, block)
  {
    var e :| e in Group(k, c, side) && StatusOf(d, e) != Absent && !LedgerDecoder(k)(e.parent, e.file, e.raw);
    hide StatusOf, MayPublishGroup, Accepts, Group;
    UnfitRecordClosesLedger(d, e, es, LedgerDecoder(k), held, bound, block);
  }

  /** Once a group is published, the same call is taken again exactly if no barrier goes beyond the jobs. */
  lemma {:induction false} BarriersCloseLedgerIff(
      k: Coding, before: Root, d: Root, c: T.Committed, side: Side, other: Demand, limit: Demand, block: Block)
    requires Faithful(k) && T.WellFormed(c.prepared) && before.Valid()
    requires MayPublishGroup(before, Group(k, c, side), LedgerDecoder(k), other, limit, block)
    requires GroupMidway(Recovered(before, Group(k, c, side)), d, Group(k, c, side), |Group(k, c, side)|, block)
    ensures MayPublishGroup(d, Group(k, c, side), LedgerDecoder(k), other, limit, block) <==>
      T.BarriersAreJobs(c.prepared)
  {
    hide MayPublishGroup, GroupMidway, T.WellFormed, StatusOf, Accepts, Faithful, Group, AllFit;
    hide Recovered, LedgerDecoder;
    var es := Group(k, c, side);
    GroupIsDistinct(k, c, side);
    AllPublished(Recovered(before, es), d, es, block);
    GroupFitsIff(k, c, side, d);
    GroupRetryConverges(before, d, es, |es|, LedgerDecoder(k), other, limit, block);
  }

  /** If one does, the ledger is closed to every later group, whatever the group and the limits. */
  lemma {:induction false} BarrierBeyondJobsCloses(
      k: Coding, r: Root, d: Root, c: T.Committed, side: Side, es: seq<Entry>, held: Demand, bound: Demand,
      block: Block)
    requires Faithful(k) && T.WellFormed(c.prepared) && !T.BarriersAreJobs(c.prepared)
    requires GroupMidway(r, d, Group(k, c, side), |Group(k, c, side)|, block)
    ensures !MayPublishGroup(d, es, LedgerDecoder(k), held, bound, block)
  {
    hide MayPublishGroup, GroupMidway, T.WellFormed, StatusOf, Accepts, Faithful, Group, AllFit, LedgerDecoder;
    AllPublished(r, d, Group(k, c, side), block);
    GroupFitsIff(k, c, side, d);
    UnfitGroupCloses(k, d, c, side, es, held, bound, block);
  }

  /** An execution whose dispatch is unknown closes the root of either side by its own group. */
  lemma {:induction false} UnknownDispatchCloses(
      k: Coding, at: nat, side: Side, d: Root, limit: Demand, block: Block, es: seq<Entry>, held: Demand, bound: Demand)
    requires Faithful(k) && |k.text(T.Committed(T.UNKNOWN_DISPATCH, at))| <= MAX_METADATA
    requires var group := Group(k, T.Committed(T.UNKNOWN_DISPATCH, at), side);
      Demands(EMPTY, group, block).Within(limit) && GroupMidway(EMPTY, d, group, |group|, block)
    ensures T.WellFormed(T.UNKNOWN_DISPATCH)
    ensures MayPublishGroup(
      EMPTY, Group(k, T.Committed(T.UNKNOWN_DISPATCH, at), side), LedgerDecoder(k), NOTHING, limit, block)
    ensures !MayPublishGroup(d, es, LedgerDecoder(k), held, bound, block)
  {
    hide MayPublishGroup, GroupMidway, Faithful, Group, LedgerDecoder, Demands, StatusOf;
    var c := T.Committed(T.UNKNOWN_DISPATCH, at);
    T.UnknownDispatchIsWellFormed();
    FirstGroupGoesThrough(k, c, side, limit, block);
    BarrierBeyondJobsCloses(k, EMPTY, d, c, side, es, held, bound, block);
  }
}
