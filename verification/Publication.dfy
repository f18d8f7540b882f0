/**
 Publication of one immutable metadata record through a deterministic sibling stage:
 create, write, settle the identity, link, unlink.  Every directory that a crash can leave
 behind is recorded in a trace, and the theorems are about all of them.
 */
module Publication {
  import opened Inodes
  import opened StorageQuota

  const MAX_METADATA := 16_384

  type Block = b: nat | b > 0 witness 1

  /** The ledgers of the four metadata roots. */
  datatype Ledger = Prepared | Completed | Deleting | Committed | Barriers | Intents | AgentBarriers | Acks

  /** Only the equality of record identifiers matters. */
  type RecordId = nat

  /** A stage is named after its final name and the digest of the bytes it is for. */
  datatype Name = Final(parent: Ledger, file: RecordId) | Stage(parent: Ledger, file: RecordId, of: Bytes)

  type Root = Directory<Name>

  datatype Entry = Entry(parent: Ledger, file: RecordId, raw: Bytes) {
    function Target(): Name
    {
      Final(parent, file)
    }

    function Temporary(): Name
    {
      Stage(parent, file, raw)
    }
  }

  /** What a directory shows of one publication. */
  datatype Status = Absent | Staged | Linked | Published | Unsafe

  function StatusOf(d: Root, e: Entry): Status
  {
    var target, stage := e.Target(), e.Temporary();
    if target in d.names && stage in d.names then
      if && d.names[target] == d.names[stage]
         && d.Contains(target, e.raw)
         && forall m | m in d.names && d.names[m] == d.names[target] :: m == target || m == stage
      then Linked else Unsafe
    else if target in d.names then
      if d.Contains(target, e.raw) && d.IsOnlyName(target) then Published else Unsafe
    else if stage in d.names then
      if d.Contains(stage, e.raw) && d.IsOnlyName(stage) then Staged else Unsafe
    else Absent
  }

  /** The leftover of a crash before the stage had all its bytes and its identity. */
  predicate Torn(d: Root, e: Entry)
  {
    && e.Target() !in d.names
    && e.Temporary() in d.names
    && d.names[e.Temporary()] < |d.inodes|
    && d.IsOnlyName(e.Temporary())
    && d.inodes[d.names[e.Temporary()]].bytes <= e.raw
    && !d.Contains(e.Temporary(), e.raw)
  }

  predicate HasOtherStage(d: Root, e: Entry)
  {
    exists n | n in d.names :: n.Stage? && n.parent == e.parent && n != e.Temporary()
  }

  /** Exactly the directories in which a publication goes through. */
  predicate MayPublish(d: Root, e: Entry)
  {
    |e.raw| <= MAX_METADATA && !HasOtherStage(d, e) && StatusOf(d, e) != Unsafe
  }

  // ----- what is held, and what a publication can still add to it

  function Space(inodes: seq<Inode>, block: Block): nat
  {
    if inodes == [] then 0 else RoundUp(|inodes[0].bytes|, block) + Space(inodes[1..], block)
  }

  function Held(d: Root, block: Block): Demand
  {
    Demand(Space(d.inodes, block), |d.names|)
  }

  /** The demand of one publication; on a complete stage it is one name and no bytes. */
  function Remaining(d: Root, e: Entry, block: Block): Demand
  {
    var whole := RoundUp(|e.raw|, block);
    if e.Target() in d.names then NOTHING
    else if e.Temporary() !in d.names then Demand(whole, 2)
    else if d.names[e.Temporary()] >= |d.inodes| then NOTHING
    else
      var part := RoundUp(|d.inodes[d.names[e.Temporary()]].bytes|, block);
      Demand(if part <= whole then whole - part else 0, 1)
  }

  lemma {:induction false} SpaceAppend(s: seq<Inode>, x: Inode, block: Block)
    ensures Space(s + [x], block) == Space(s, block) + RoundUp(|x.bytes|, block)
  {
    if s == [] {
      assert s + [x] == [x];
    } else {
      assert (s + [x])[1..] == s[1..] + [x];
      SpaceAppend(s[1..], x, block);
    }
  }

  lemma {:induction false} SpaceUpdate(s: seq<Inode>, i: nat, x: Inode, block: Block)
    requires i < |s|
    ensures Space(s[i := x], block) + RoundUp(|s[i].bytes|, block)
         == Space(s, block) + RoundUp(|x.bytes|, block)
  {
    if i == 0 {
      assert s[0 := x][1..] == s[1..];
    } else {
      assert s[i := x][1..] == s[1..][i - 1 := x];
      SpaceUpdate(s[1..], i - 1, x, block);
    }
  }

  lemma HeldAfterCreate(d: Root, n: Name, settled: bool, block: Block)
    requires n !in d.names
    ensures Held(d.Create(n, settled), block) == Held(d, block).Plus(Demand(0, 1))
  {
    SpaceAppend(d.inodes, Inode("", settled), block);
    RoundUpIsLeast(0, block, 0);
  }

  lemma HeldAfterWrite(d: Root, i: nat, x: Inode, block: Block)
    requires i < |d.inodes|
    ensures Held(d.(inodes := d.inodes[i := x]), block).bytes + RoundUp(|d.inodes[i].bytes|, block)
         == Held(d, block).bytes + RoundUp(|x.bytes|, block)
    ensures Held(d.(inodes := d.inodes[i := x]), block).nodes == Held(d, block).nodes
  {
    SpaceUpdate(d.inodes, i, x, block);
  }

  // ----- the directories between the first and the last micro-step

  /** Only the two names of `e` differ, and no older inode was touched. */
  predicate Framed(before: Root, d: Root, e: Entry)
  {
    && before.inodes <= d.inodes
    && (forall n | n in before.names && n != e.Target() && n != e.Temporary() ::
          n in d.names && d.names[n] == before.names[n])
    && (forall n | n in d.names && n != e.Target() && n != e.Temporary() :: n in before.names)
  }

  predicate NoGrowth(before: Root, d: Root, e: Entry, block: Block)
  {
    Held(d, block).Plus(Remaining(d, e, block)).Within(Held(before, block).Plus(Remaining(before, e, block)))
  }

  ghost predicate Midway(before: Root, d: Root, e: Entry, block: Block)
  {
    && d.Valid()
    && Framed(before, d, e)
    && (StatusOf(d, e) != Unsafe || Torn(d, e))
    && NoGrowth(before, d, e, block)
  }

  /** The stage has been created and holds `written` characters. */
  ghost predicate Writing(before: Root, d: Root, e: Entry, written: nat, block: Block)
  {
    && Midway(before, d, e, block)
    && e.Target() !in d.names
    && e.Temporary() in d.names
    && d.names[e.Temporary()] >= |before.inodes|
    && d.IsOnlyName(e.Temporary())
    && written <= |e.raw|
    && d.inodes[d.names[e.Temporary()]].bytes == e.raw[..written]
  }

  lemma Starts(before: Root, e: Entry, block: Block)
    requires before.Valid() && StatusOf(before, e) != Unsafe
    ensures Midway(before, before, e, block)
  {
  }

  lemma Creates(before: Root, e: Entry, settled: bool, block: Block)
    requires before.Valid() && StatusOf(before, e) == Absent
    ensures Writing(before, before.Create(e.Temporary(), settled), e, 0, block)
  {
    var d := before.Create(e.Temporary(), settled);
    CreateKeepsNames(before, e.Temporary(), settled);
    HeldAfterCreate(before, e.Temporary(), settled, block);
    RoundUpIsLeast(0, block, 0);
    assert d.names[e.Temporary()] == |before.inodes|;
  }

  lemma Writes(before: Root, d: Root, e: Entry, written: nat, more: nat, block: Block)
    requires Writing(before, d, e, written, block)
    requires written + more <= |e.raw|
    ensures Writing(before, d.Append(e.Temporary(), e.raw[written..written + more]), e, written + more, block)
  {
    var stage := e.Temporary();
    var after := d.Append(stage, e.raw[written..written + more]);
    var i := d.names[stage];
    assert e.raw[..written] + e.raw[written..written + more] == e.raw[..written + more];
    WriteKeepsNames(d, i, after.inodes[i]);
    HeldAfterWrite(d, i, after.inodes[i], block);
    RoundUpMonotone(written, written + more, block);
    RoundUpMonotone(written + more, |e.raw|, block);
  }

  lemma Settles(before: Root, d: Root, e: Entry, block: Block)
    requires Writing(before, d, e, |e.raw|, block)
    ensures Midway(before, d.Settle(e.Temporary()), e, block)
    ensures StatusOf(d.Settle(e.Temporary()), e) == Staged
  {
    var after := d.Settle(e.Temporary());
    var i := d.names[e.Temporary()];
    WriteKeepsNames(d, i, after.inodes[i]);
    HeldAfterWrite(d, i, after.inodes[i], block);
  }

  lemma Links(before: Root, d: Root, e: Entry, block: Block)
    requires Midway(before, d, e, block) && StatusOf(d, e) == Staged
    ensures Midway(before, d.Link(e.Temporary(), e.Target()), e, block)
    ensures StatusOf(d.Link(e.Temporary(), e.Target()), e) == Linked
  {
    var after := d.Link(e.Temporary(), e.Target());
    LinkKeepsNames(d, e.Temporary(), e.Target());
    assert |after.names| == |d.names| + 1;
  }

  lemma Unlinks(before: Root, d: Root, e: Entry, block: Block)
    requires Midway(before, d, e, block) && StatusOf(d, e) == Linked
    ensures Midway(before, d.Unlink(e.Temporary()), e, block)
    ensures StatusOf(d.Unlink(e.Temporary()), e) == Published
  {
    var after := d.Unlink(e.Temporary());
    UnlinkKeepsNames(d, e.Temporary(), e.Target());
    assert d.names.Keys == after.names.Keys + {e.Temporary()};
    assert |d.names| == |after.names| + 1;
  }

  /** A directory of metadata records, changed in place one system call at a time. */
  class MetadataRoot {
    var dir: Root
    const block: Block

    constructor (d: Root, b: Block)
      ensures dir == d && block == b
    {
      dir, block := d, b;
    }

    /** The name shows exactly these bytes with the expected link count. */
    method ReadStaging(name: Name, raw: Bytes, links: nat) returns (ok: bool)
      ensures ok <==> dir.Contains(name, raw) && dir.Links(name) == links
    {
      ok := name in dir.names && dir.Links(name) == links && dir.Contains(name, raw);
    }

    /** Drop the stage of an exactly linked pair. */
    method RecoverLinked(e: Entry) returns (ok: bool, ghost trace: seq<Root>)
      requires dir.Valid()
      modifies this`dir
      ensures ok <==> StatusOf(old(dir), e) == Linked
      ensures dir == if ok then old(dir).Unlink(e.Temporary()) else old(dir)
      ensures trace == (if ok then [old(dir), dir] else [dir]) && Complete(trace, old(dir), dir)
    {
      trace := [dir];
      var target, stage := e.Target(), e.Temporary();
      var staged := ReadStaging(stage, e.raw, 2);
      var final := ReadStaging(target, e.raw, 2);
      if !staged || !final || dir.names[stage] != dir.names[target] {
        if target in dir.names && stage in dir.names && dir.names[stage] == dir.names[target] {
          TwoLinks(dir, target, stage);
          TwoLinks(dir, stage, target);
        }
        return false, trace;
      }
      TwoLinks(dir, target, stage);
      Performs(trace, dir, dir, Unlinked(stage));
      dir := dir.Unlink(stage);
      return true, trace + [dir];
    }

    /** Write the bytes in chunks of whatever length the system accepts. */
    method StageBytes(e: Entry) returns (ghost trace: seq<Root>)
      requires dir.Valid() && StatusOf(dir, e) == Absent
      modifies this`dir
      ensures dir.Valid() && Midway(old(dir), dir, e, block) && StatusOf(dir, e) == Staged
      ensures Complete(trace, old(dir), dir)
      ensures forall d | d in trace :: Midway(old(dir), d, e, block)
    {
      hide Complete, Framed, NoGrowth, Torn;
      ghost var before := dir;
      var stage := e.Temporary();
      var settled := *;
      trace := [dir];
      Starts(before, e, block);
      Creates(before, e, settled, block);
      Performs(trace, before, dir, Created(stage, settled));
      dir := dir.Create(stage, settled);
      trace := trace + [dir];
      var written := 0;
      while written < |e.raw|
        invariant Writing(before, dir, e, written, block)
        invariant Complete(trace, before, dir)
        invariant forall d | d in trace :: Midway(before, d, e, block)
      {
        var count: nat :| 1 <= count <= |e.raw| - written;
        Writes(before, dir, e, written, count, block);
        Performs(trace, before, dir, Appended(stage, e.raw[written..written + count]));
        dir := dir.Append(stage, e.raw[written..written + count]);
        trace := trace + [dir];
        written := written + count;
      }
      Settles(before, dir, e, block);
      Performs(trace, before, dir, Settled(stage));
      dir := dir.Settle(stage);
      trace := trace + [dir];
    }

    /** Give a complete stage its final name, then drop the name of the stage. */
    method LinkStage(e: Entry, ghost before: Root) returns (ghost trace: seq<Root>)
      requires dir.Valid() && Midway(before, dir, e, block) && StatusOf(dir, e) == Staged
      modifies this`dir
      ensures StatusOf(dir, e) == Published
      ensures Complete(trace, old(dir), dir)
      ensures forall d | d in trace :: Midway(before, d, e, block)
    {
      trace := [dir];
      Links(before, dir, e, block);
      Performs(trace, dir, dir, LinkedTo(e.Temporary(), e.Target()));
      dir := dir.Link(e.Temporary(), e.Target());
      trace := trace + [dir];
      Unlinks(before, dir, e, block);
      ghost var tail, linked := [], dir;
      var ok;
      ok, tail := RecoverLinked(e);
      Follows(trace, tail, old(dir), linked, dir);
      trace := trace + tail;
    }

    /** Publish one record, finishing whatever an earlier attempt left behind. */
    method Publish(e: Entry) returns (ok: bool, ghost trace: seq<Root>)
      requires dir.Valid()
      modifies this`dir
      ensures ok <==> MayPublish(old(dir), e)
      ensures !ok ==> dir == old(dir) && trace == [dir]
      ensures ok ==> StatusOf(dir, e) == Published
      ensures ok ==> forall d | d in trace :: Midway(old(dir), d, e, block)
      ensures Complete(trace, old(dir), dir)
    {
      hide Midway, HasOtherStage;
      ghost var before := dir;
      trace := [dir];
      var target, stage := e.Target(), e.Temporary();
      if |e.raw| > MAX_METADATA || HasOtherStage(dir, e) {
        return false, trace;
      }
      if StatusOf(dir, e) != Unsafe { Starts(before, e, block); }
      if target in dir.names && stage in dir.names {
        if StatusOf(dir, e) == Linked { Unlinks(before, dir, e, block); }
        ok, trace := RecoverLinked(e);
        return;
      }
      if target in dir.names {
        OneLink(dir, target);
        ok := ReadStaging(target, e.raw, 1);
        return;
      }
      if stage in dir.names {
        OneLink(dir, stage);
        ok := ReadStaging(stage, e.raw, 1);
        if !ok { return; }
      } else {
        trace := StageBytes(e);
      }
      ghost var staged := dir;
      ghost var tail := LinkStage(e, before);
      Follows(trace, tail, before, staged, dir);
      return true, trace + tail;
    }
  }

  // ----- what the micro-steps keep, and what a retry can do

  lemma SameOtherStages(before: Root, d: Root, e: Entry)
    requires Framed(before, d, e)
    ensures HasOtherStage(d, e) <==> HasOtherStage(before, e)
  {
  }

  /** At no micro-step does the final name show anything but the bytes being published. */
  lemma FinalNameIsExact(before: Root, d: Root, e: Entry, block: Block)
    requires Midway(before, d, e, block)
    ensures e.Target() in d.names ==> d.Contains(e.Target(), e.raw)
  {
  }

  /** A crash anywhere leaves a directory from which the same call succeeds, unless the stage is torn. */
  lemma RetryConverges(before: Root, d: Root, e: Entry, block: Block)
    requires MayPublish(before, e) && Midway(before, d, e, block)
    ensures MayPublish(d, e) <==> !Torn(d, e)
  {
    SameOtherStages(before, d, e);
  }

  /** An occupied name refuses every other content. */
  lemma OccupiedNameRefuses(d: Root, e: Entry, other: Bytes)
    requires StatusOf(d, e) == Published || StatusOf(d, e) == Linked
    requires other != e.raw
    ensures !MayPublish(d, e.(raw := other))
  {
  }

  // ----- a retry with other bytes under the same name

  /**
   An acknowledgement carries the time of the attempt, so a later attempt brings other bytes for the
   same name.  From a crash at any micro-step it goes through exactly if nothing had been created yet.
   */
  lemma OtherBytesRetryIff(before: Root, d: Root, e: Entry, other: Bytes, block: Block)
    requires MayPublish(before, e) && StatusOf(before, e) == Absent && Midway(before, d, e, block)
    requires other != e.raw && |other| <= MAX_METADATA
    ensures MayPublish(d, e.(raw := other)) <==> StatusOf(d, e) == Absent
  {
    var later := e.(raw := other);
    if e.Target() in d.names {
      if e.Temporary() in d.names {
        assert e.Temporary().Stage? && e.Temporary() != later.Temporary();
      } else {
        OccupiedNameRefuses(d, e, other);
      }
    } else if e.Temporary() in d.names {
      assert e.Temporary().Stage? && e.Temporary() != later.Temporary();
    } else {
      SameOtherStages(before, d, e);
      assert later.Temporary() !in d.names;
    }
  }

  /** And what it left behind keeps every other record out of that directory, too. */
  lemma AbandonedStageCloses(d: Root, e: Entry, later: Entry)
    requires e.Temporary() in d.names && later.parent == e.parent && later.Temporary() != e.Temporary()
    ensures !MayPublish(d, later)
  {
  }
}
