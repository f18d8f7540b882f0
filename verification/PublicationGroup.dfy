/**
 A group of records published under one capacity admission: recover linked stages, check the
 ledger, measure, admit the peak demand of the whole group, then publish one record after another.
 */
module PublicationGroup {
  import opened Options
  import opened Inodes
  import opened StorageQuota
  import opened Publication

  /** Whether the decoder of a ledger accepts these bytes under this name. */
  type Decoder = (Ledger, RecordId, Bytes) -> bool

  predicate Distinct(es: seq<Entry>)
  {
    forall i, j | 0 <= i < j < |es| :: es[i].Target() != es[j].Target()
  }

  // ----- recovery of linked stages

  predicate IsLeftover(d: Root, es: seq<Entry>, n: Name)
  {
    exists e | e in es :: n == e.Temporary() && StatusOf(d, e) == Linked
  }

  /** The directory without the stages whose records already have their final name. */
  function Recovered(d: Root, es: seq<Entry>): Root
  {
    d.(names := map n | n in d.names && !IsLeftover(d, es, n) :: d.names[n])
  }

  // ----- the ledger check and the measurement

  predicate Single(d: Root)
  {
    forall n, m | n in d.names && m in d.names && d.names[n] == d.names[m] :: n == m
  }

  /** Final names and complete stages; the ledger of deletion markers knows final names only. */
  predicate NameFits(d: Root, n: Name, fits: Decoder)
    requires n in d.names
  {
    && d.names[n] < |d.inodes|
    && var inode := d.inodes[d.names[n]];
       && inode.settled
       && |inode.bytes| <= MAX_METADATA
       && fits(n.parent, n.file, inode.bytes)
       && (n.Stage? ==>
             && n.parent != Deleting
             && inode.bytes == n.of
             && (Final(n.parent, n.file) in d.names ==> d.names[Final(n.parent, n.file)] == d.names[n])
             && forall m | m in d.names && m.Stage? && m.parent == n.parent && m.file == n.file :: m == n)
  }

  /** Every name is understood and every file has one link, as the ledger check and the meter demand. */
  predicate Clean(d: Root, fits: Decoder)
  {
    Single(d) && LedgerFits(d, fits)
  }

  predicate LedgerFits(d: Root, fits: Decoder)
  {
    forall n | n in d.names :: NameFits(d, n, fits)
  }

  function Counted(inodes: seq<Inode>, ids: set<nat>, k: nat, block: Block): nat
    requires k <= |inodes|
  {
    if k == 0 then 0
    else Counted(inodes, ids, k - 1, block) + if k - 1 in ids then RoundUp(|inodes[k - 1].bytes|, block) else 0
  }

  lemma {:induction false} CountedAll(inodes: seq<Inode>, ids: set<nat>, k: nat, block: Block)
    requires k <= |inodes| && forall i | 0 <= i < |inodes| :: i in ids
    ensures Counted(inodes, ids, k, block) == Space(inodes[..k], block)
  {
    if k != 0 {
      CountedAll(inodes, ids, k - 1, block);
      SpaceAppend(inodes[..k - 1], inodes[k - 1], block);
      assert inodes[..k] == inodes[..k - 1] + [inodes[k - 1]];
    }
  }

  lemma {:induction false} CountedWithout(inodes: seq<Inode>, ids: set<nat>, i: nat, k: nat, block: Block)
    requires k <= |inodes| && i in ids
    ensures Counted(inodes, ids, k, block)
         == Counted(inodes, ids - {i}, k, block) + if i < k then RoundUp(|inodes[i].bytes|, block) else 0
  {
    if k != 0 { CountedWithout(inodes, ids, i, k - 1, block); }
  }

  lemma {:induction false} CountedNone(inodes: seq<Inode>, k: nat, block: Block)
    requires k <= |inodes|
    ensures Counted(inodes, {}, k, block) == 0
  {
    if k != 0 { CountedNone(inodes, k - 1, block); }
  }

  /** The inodes behind a set of names. */
  ghost function Behind(d: Root, names: set<Name>): set<nat>
    requires names <= d.names.Keys
  {
    set n | n in names :: d.names[n]
  }

  lemma BehindAll(d: Root)
    requires d.Valid()
    ensures forall i | 0 <= i < |d.inodes| :: i in Behind(d, d.names.Keys)
  {
    forall i | 0 <= i < |d.inodes| ensures i in Behind(d, d.names.Keys) {
      assert d.HasName(i);
    }
  }

  /** The meter walks over names; where every file has one link, this is what the inodes hold. */
  method Measure(d: Root, other: Demand, block: Block) returns (measured: Option<Demand>)
    requires d.Valid()
    ensures measured.Some? <==> Single(d)
    ensures measured.Some? ==> measured.value == other.Plus(Held(d, block))
  {
    var todo := d.names.Keys;
    var total := other;
    BehindAll(d);
    CountedAll(d.inodes, Behind(d, todo), |d.inodes|, block);
    assert d.inodes[..|d.inodes|] == d.inodes;
    while todo != {}
      invariant todo <= d.names.Keys
      invariant forall n | n in d.names && n !in todo :: d.IsOnlyName(n)
      invariant total.bytes + Counted(d.inodes, Behind(d, todo), |d.inodes|, block)
             == other.bytes + Held(d, block).bytes
      invariant total.nodes + |todo| == other.nodes + |d.names|
    {
      var n :| n in todo;
      OneLink(d, n);
      if d.Links(n) != 1 { return None; }
      total := total.Plus(Demand(RoundUp(|d.inodes[d.names[n]].bytes|, block), 1));
      CountedWithout(d.inodes, Behind(d, todo), d.names[n], |d.inodes|, block);
      assert Behind(d, todo - {n}) == Behind(d, todo) - {d.names[n]};
      todo := todo - {n};
    }
    CountedNone(d.inodes, |d.inodes|, block);
    assert Behind(d, {}) == {};
    return Some(total);
  }

  // ----- which groups go through

  /** Another stage in the same parent is in the way when the turn of `es[j]` comes. */
  predicate Blocked(r: Root, es: seq<Entry>, j: nat)
    requires j < |es|
  {
    exists n | n in r.names ::
      n.Stage? && n.parent == es[j].parent && forall i | 0 <= i <= j :: n != es[i].Temporary()
  }

  function Demands(d: Root, es: seq<Entry>, block: Block): Demand
  {
    if es == [] then NOTHING else Remaining(d, es[0], block).Plus(Demands(d, es[1..], block))
  }

  /** Exactly the directories from which the whole group is published. */
  predicate MayPublishGroup(d: Root, es: seq<Entry>, fits: Decoder, other: Demand, limit: Demand, block: Block)
  {
    var r := Recovered(d, es);
    && (forall e | e in es :: StatusOf(d, e) != Unsafe && |e.raw| <= MAX_METADATA)
    && Clean(r, fits)
    && Admits(other.Plus(Held(r, block)), Demands(r, es, block), limit)
    && (forall j | 0 <= j < |es| :: !Blocked(r, es, j))
  }

  predicate Owned(es: seq<Entry>, n: Name)
  {
    exists e | e in es :: n == e.Target() || n == e.Temporary()
  }

  predicate GroupFramed(before: Root, d: Root, es: seq<Entry>)
  {
    && before.inodes <= d.inodes
    && (forall n | n in before.names && !Owned(es, n) :: n in d.names && d.names[n] == before.names[n])
    && (forall n | n in d.names && !Owned(es, n) :: n in before.names)
  }

  /** The first `k` records are published, record `k` is under way, the others are as before. */
  ghost predicate GroupMidway(r: Root, d: Root, es: seq<Entry>, k: nat, block: Block)
  {
    && k <= |es|
    && d.Valid()
    && GroupFramed(r, d, es)
    && (forall i | 0 <= i < k :: StatusOf(d, es[i]) == Published)
    && (forall i | k < i < |es| :: StatusOf(d, es[i]) == StatusOf(r, es[i]))
    && (k < |es| ==> StatusOf(d, es[k]) != Unsafe || Torn(d, es[k]))
    && Held(d, block).Plus(Demands(d, es, block)).Within(Held(r, block).Plus(Demands(r, es, block)))
  }

  ghost predicate Underway(r: Root, d: Root, es: seq<Entry>, block: Block)
  {
    exists k :: GroupMidway(r, d, es, k, block)
  }

  ghost predicate Recovering(before: Root, d: Root, es: seq<Entry>)
  {
    exists i :: 0 <= i <= |es| && d == Recovered(before, es[..i])
  }

  /** A publication under way leaves the other records of the group alone. */
  lemma Undisturbed(before: Root, d: Root, e: Entry, o: Entry)
    requires before.Valid() && d.Valid() && StatusOf(before, e) != Unsafe
    requires Framed(before, d, e) && (StatusOf(d, e) != Unsafe || Torn(d, e))
    requires e.Target() != o.Target()
    ensures StatusOf(d, o) == StatusOf(before, o)
  {
  }

  lemma SameRemaining(before: Root, d: Root, e: Entry, o: Entry, block: Block)
    requires before.Valid() && Framed(before, d, e) && e.Target() != o.Target()
    ensures Remaining(d, o, block) == Remaining(before, o, block)
  {
  }

  /** A leftover stage shares its inode with its final name only. */
  lemma LeftoverPair(d: Root, es: seq<Entry>, m: Name, k: Name)
    requires IsLeftover(d, es, m) && m in d.names && k in d.names && d.names[k] == d.names[m]
    ensures m.Stage? && (k == m || (k == Final(m.parent, m.file) && d.Contains(k, m.of)))
  {
  }

  /** Recovery publishes the linked records and changes the status of no other. */
  lemma RecoveredStatus(d: Root, es: seq<Entry>, o: Entry)
    ensures StatusOf(Recovered(d, es), o)
         == if o in es && StatusOf(d, o) == Linked then Published else StatusOf(d, o)
  {
    var r := Recovered(d, es);
    assert IsLeftover(d, es, o.Temporary()) <==> o in es && StatusOf(d, o) == Linked;
    assert !IsLeftover(d, es, o.Target());
    assert o.Target() in r.names <==> o.Target() in d.names;
    forall m, k | m in d.names && m !in r.names && k in d.names && d.names[k] == d.names[m]
      ensures m.Stage? && (k == m || (k == Final(m.parent, m.file) && d.Contains(k, m.of)))
    {
      LeftoverPair(d, es, m, k);
    }
  }

  lemma RecoveredKeepsNames(d: Root, es: seq<Entry>)
    requires d.Valid()
    ensures Recovered(d, es).Valid()
  {
    var r := Recovered(d, es);
    forall i | 0 <= i < |r.inodes| ensures r.HasName(i) {
      assert d.HasName(i);
      var n :| n in d.names && d.names[n] == i;
      if n in r.names {
        assert r.names[n] == i;
      } else {
        var e :| e in es && n == e.Temporary() && StatusOf(d, e) == Linked;
        assert r.names[e.Target()] == i;
      }
    }
  }

  lemma RecoverNext(d: Root, es: seq<Entry>, i: nat)
    requires Distinct(es) && i < |es|
    ensures var r := Recovered(d, es[..i]);
            StatusOf(r, es[i]) == StatusOf(d, es[i])
    ensures var r := Recovered(d, es[..i]);
            Recovered(d, es[..i + 1]) == if StatusOf(d, es[i]) == Linked then r.Unlink(es[i].Temporary()) else r
  {
    RecoveredStatus(d, es[..i], es[i]);
    forall n ensures IsLeftover(d, es[..i + 1], n) <==>
      IsLeftover(d, es[..i], n) || (StatusOf(d, es[i]) == Linked && n == es[i].Temporary())
    {
      LeftoverNext(d, es, i, n);
    }
  }

  lemma LeftoverNext(d: Root, es: seq<Entry>, i: nat, n: Name)
    requires i < |es|
    ensures IsLeftover(d, es[..i + 1], n) <==>
      IsLeftover(d, es[..i], n) || (StatusOf(d, es[i]) == Linked && n == es[i].Temporary())
  {
    assert forall e | e in es[..i + 1] :: e in es[..i] || e == es[i];
    assert es[i] == es[..i + 1][i];
    assert forall e | e in es[..i] :: e in es[..i + 1];
  }

  predicate Resumable(d: Root, e: Entry)
  {
    e.Target() in d.names && e.Temporary() in d.names ==> StatusOf(d, e) == Linked
  }

  method RecoverGroup(root: MetadataRoot, es: seq<Entry>) returns (ok: bool, ghost trace: seq<Root>)
    requires root.dir.Valid() && Distinct(es)
    modifies root`dir
    ensures ok <==> forall e | e in es :: Resumable(old(root.dir), e)
    ensures ok ==> root.dir == Recovered(old(root.dir), es)
    ensures root.dir.Valid() && Recovering(old(root.dir), root.dir, es)
    ensures Complete(trace, old(root.dir), root.dir)
    ensures forall d | d in trace :: Recovering(old(root.dir), d, es)
  {
    hide Complete;
    ghost var before := root.dir;
    assert Recovered(before, es[..0]) == before;
    trace := [root.dir];
    Still(before);
    for i := 0 to |es|
      invariant root.dir.Valid() && root.dir == Recovered(before, es[..i])
      invariant forall e | e in es[..i] :: Resumable(before, e)
      invariant Complete(trace, before, root.dir)
      invariant forall d | d in trace :: Recovering(before, d, es)
    {
      RecoverNext(before, es, i);
      RecoveredKeepsNames(before, es[..i + 1]);
      var e := es[i];
      if e.Target() in root.dir.names && e.Temporary() in root.dir.names {
        ghost var steps, middle := [], root.dir;
        ok, steps := root.RecoverLinked(e);
        Follows(trace, steps, before, middle, root.dir);
        trace := trace + steps;
        if !ok {
          assert e in es && !Resumable(before, e);
          return;
        }
      }
      assert es[..i + 1] == es[..i] + [e];
    }
    assert es[..|es|] == es;
    return true, trace;
  }

  // ----- publication of the group

  lemma {:induction false} DemandsFrame(before: Root, d: Root, es: seq<Entry>, k: nat, block: Block)
    requires k < |es|
    requires forall i | 0 <= i < |es| && i != k :: Remaining(d, es[i], block) == Remaining(before, es[i], block)
    ensures Demands(d, es, block).Plus(Remaining(before, es[k], block))
         == Demands(before, es, block).Plus(Remaining(d, es[k], block))
  {
    if k == 0 {
      SameDemands(before, d, es[1..], block);
    } else {
      DemandsFrame(before, d, es[1..], k - 1, block);
    }
  }

  lemma {:induction false} SameDemands(before: Root, d: Root, es: seq<Entry>, block: Block)
    requires forall i | 0 <= i < |es| :: Remaining(d, es[i], block) == Remaining(before, es[i], block)
    ensures Demands(d, es, block) == Demands(before, es, block)
  {
    if es != [] { SameDemands(before, d, es[1..], block); }
  }

  /** Before the turn of record `k`. */
  ghost predicate Before(r: Root, d: Root, es: seq<Entry>, k: nat, block: Block)
  {
    && GroupMidway(r, d, es, k, block)
    && (k < |es| ==> StatusOf(d, es[k]) == StatusOf(r, es[k]))
  }

  ghost predicate Publishable(r: Root, es: seq<Entry>)
  {
    && r.Valid()
    && Distinct(es)
    && forall i | 0 <= i < |es| :: StatusOf(r, es[i]) != Unsafe && StatusOf(r, es[i]) != Linked
  }

  /** One record under way between two directories of the group publication. */
  lemma Advances(r: Root, before: Root, d: Root, es: seq<Entry>, k: nat, block: Block)
    requires Publishable(r, es) && k < |es|
    requires Before(r, before, es, k, block) && Midway(before, d, es[k], block)
    ensures GroupMidway(r, d, es, k, block)
    ensures StatusOf(d, es[k]) == Published ==> Before(r, d, es, k + 1, block)
  {
    forall i | 0 <= i < |es| && i != k
      ensures StatusOf(d, es[i]) == StatusOf(before, es[i])
      ensures Remaining(d, es[i], block) == Remaining(before, es[i], block)
    {
      Undisturbed(before, d, es[k], es[i]);
      SameRemaining(before, d, es[k], es[i], block);
    }
    DemandsFrame(before, d, es, k, block);
    FramesCompose(r, before, d, es, k);
  }

  lemma FramesCompose(r: Root, before: Root, d: Root, es: seq<Entry>, k: nat)
    requires k < |es| && GroupFramed(r, before, es) && Framed(before, d, es[k])
    ensures GroupFramed(r, d, es)
  {
    assert forall n | !Owned(es, n) :: n != es[k].Target() && n != es[k].Temporary();
  }

  lemma StageOnDisk(d: Root, e: Entry)
    requires StatusOf(d, e) != Unsafe
    ensures e.Temporary() in d.names <==> StatusOf(d, e) == Staged || StatusOf(d, e) == Linked
  {
  }

  /** At the turn of record `k` only the stages of later records, or foreign ones, can be in the way. */
  lemma StageAtTurn(r: Root, d: Root, es: seq<Entry>, k: nat, n: Name, block: Block)
    requires Publishable(r, es) && k < |es| && Before(r, d, es, k, block) && n.Stage?
    ensures n in d.names && n != es[k].Temporary() <==> n in r.names && forall i | 0 <= i <= k :: n != es[i].Temporary()
  {
    if Owned(es, n) {
      var j :| 0 <= j < |es| && n == es[j].Temporary();
      StageOnDisk(d, es[j]);
      StageOnDisk(r, es[j]);
      assert forall i | 0 <= i < |es| && i != j :: es[i].Target() != es[j].Target();
    } else {
      assert forall i | 0 <= i < |es| :: es[i] in es;
    }
  }

  lemma BlockedAtTurn(r: Root, d: Root, es: seq<Entry>, k: nat, block: Block)
    requires Publishable(r, es) && k < |es| && Before(r, d, es, k, block)
    ensures HasOtherStage(d, es[k]) <==> Blocked(r, es, k)
  {
    forall n: Name | n.Stage?
      ensures n in d.names && n != es[k].Temporary() <==>
        n in r.names && forall i | 0 <= i <= k :: n != es[i].Temporary()
    {
      StageAtTurn(r, d, es, k, n, block);
    }
  }

  /** The turn of one record. */
  method PublishNext(root: MetadataRoot, es: seq<Entry>, k: nat, ghost r: Root)
    returns (ok: bool, ghost steps: seq<Root>)
    requires Publishable(r, es) && k < |es| && Before(r, root.dir, es, k, root.block)
    modifies root`dir
    ensures ok <==> |es[k].raw| <= MAX_METADATA && !Blocked(r, es, k)
    ensures ok ==> Before(r, root.dir, es, k + 1, root.block)
    ensures forall d | d in steps :: Underway(r, d, es, root.block)
    ensures Complete(steps, old(root.dir), root.dir)
  {
    ghost var before := root.dir;
    BlockedAtTurn(r, before, es, k, root.block);
    ok, steps := root.Publish(es[k]);
    if !ok { return; }
    assert root.dir == steps[|steps| - 1] && root.dir in steps;
    forall d | d in steps ensures Underway(r, d, es, root.block) {
      Advances(r, before, d, es, k, root.block);
    }
    Advances(r, before, root.dir, es, k, root.block);
  }

  /** Publish the records in order, stopping at the first that does not go through. */
  method PublishEach(root: MetadataRoot, es: seq<Entry>) returns (ok: bool, ghost trace: seq<Root>)
    requires Publishable(root.dir, es)
    modifies root`dir
    ensures ok <==> forall i | 0 <= i < |es| :: |es[i].raw| <= MAX_METADATA && !Blocked(old(root.dir), es, i)
    ensures ok ==> GroupMidway(old(root.dir), root.dir, es, |es|, root.block)
    ensures Complete(trace, old(root.dir), root.dir)
    ensures forall d | d in trace :: Underway(old(root.dir), d, es, root.block)
  {
    hide Complete;
    ghost var r := root.dir;
    trace := [r];
    Still(r);
    assert Before(r, r, es, 0, root.block);
    assert GroupMidway(r, r, es, 0, root.block);
    for i := 0 to |es|
      invariant Before(r, root.dir, es, i, root.block)
      invariant forall j | 0 <= j < i :: |es[j].raw| <= MAX_METADATA && !Blocked(r, es, j)
      invariant Complete(trace, r, root.dir)
      invariant forall d | d in trace :: Underway(r, d, es, root.block)
    {
      ghost var steps, middle := [], root.dir;
      ok, steps := PublishNext(root, es, i, r);
      Follows(trace, steps, r, middle, root.dir);
      trace := trace + steps;
      if !ok { return; }
    }
    return true, trace;
  }

  predicate BothNames(d: Root, e: Entry)
  {
    e.Target() in d.names && e.Temporary() in d.names
  }

  /** The peak demand of the group; it is refused if some name shows anything unexpected. */
  method GroupDemand(root: MetadataRoot, es: seq<Entry>) returns (demand: Option<Demand>)
    requires forall i | 0 <= i < |es| :: !BothNames(root.dir, es[i])
    ensures demand.Some? <==> forall i | 0 <= i < |es| :: StatusOf(root.dir, es[i]) != Unsafe
    ensures demand.Some? ==> demand.value == Demands(root.dir, es, root.block)
  {
    var total := NOTHING;
    assert es[0..] == es;
    for i := 0 to |es|
      invariant forall j | 0 <= j < i :: StatusOf(root.dir, es[j]) != Unsafe
      invariant total.Plus(Demands(root.dir, es[i..], root.block)) == Demands(root.dir, es, root.block)
    {
      var one := PeakDemand(root, es[i]);
      if one.None? { return None; }
      total := total.Plus(one.value);
      assert es[i..][1..] == es[i + 1..];
    }
    return Some(total);
  }

  method PeakDemand(root: MetadataRoot, e: Entry) returns (demand: Option<Demand>)
    requires !BothNames(root.dir, e)
    ensures demand.Some? <==> StatusOf(root.dir, e) != Unsafe
    ensures demand.Some? ==> demand.value == Remaining(root.dir, e, root.block)
  {
    var target, stage := e.Target(), e.Temporary();
    if target in root.dir.names {
      OneLink(root.dir, target);
      var published := root.ReadStaging(target, e.raw, 1);
      return if published then Some(NOTHING) else None;
    }
    if stage in root.dir.names {
      OneLink(root.dir, stage);
      var staged := root.ReadStaging(stage, e.raw, 1);
      return if staged then Some(Demand(0, 1)) else None;
    }
    return Some(Demand(RoundUp(|e.raw|, root.block), 2));
  }

  /** Hold the metadata lock, recover, check, admit and publish the whole group. */
  method PublishGroup(root: MetadataRoot, es: seq<Entry>, fits: Decoder, other: Demand, limit: Demand)
    returns (ok: bool, ghost trace: seq<Root>)
    requires root.dir.Valid() && Distinct(es)
    modifies root`dir
    ensures ok <==> MayPublishGroup(old(root.dir), es, fits, other, limit, root.block)
    ensures ok ==> GroupMidway(Recovered(old(root.dir), es), root.dir, es, |es|, root.block)
    ensures Complete(trace, old(root.dir), root.dir)
    ensures forall d | d in trace ::
      || Recovering(old(root.dir), d, es)
      || (Admitted(old(root.dir), es, other, limit, root.block) && Underway(Recovered(old(root.dir), es), d, es, root.block))
  {
    ghost var before := root.dir;
    ok, trace := RecoverGroup(root, es);
    if !ok { return; }
    AfterRecovery(before, es);
    if !LedgerFits(root.dir, fits) { return false, trace; }
    var demand := GroupDemand(root, es);
    if demand.None? { return false, trace; }
    var measured := Measure(root.dir, other, root.block);
    if measured.None? || !Admits(measured.value, demand.value, limit) { return false, trace; }
    ghost var steps, middle := [], root.dir;
    ok, steps := PublishEach(root, es);
    Follows(trace, steps, before, middle, root.dir);
    trace := trace + steps;
  }

  /** The admission test of the group as the recovered directory stands. */
  predicate Admitted(d: Root, es: seq<Entry>, other: Demand, limit: Demand, block: Block)
  {
    Admits(other.Plus(Held(Recovered(d, es), block)), Demands(Recovered(d, es), es, block), limit)
  }

  lemma AfterRecovery(before: Root, es: seq<Entry>)
    requires before.Valid() && Distinct(es) && forall e | e in es :: Resumable(before, e)
    ensures Recovered(before, es).Valid()
    ensures forall i | 0 <= i < |es| ::
      var s := StatusOf(Recovered(before, es), es[i]);
      !BothNames(Recovered(before, es), es[i]) && s != Linked && (s == Unsafe <==> StatusOf(before, es[i]) == Unsafe)
  {
    RecoveredKeepsNames(before, es);
    forall i | 0 <= i < |es|
      ensures var s := StatusOf(Recovered(before, es), es[i]);
        !BothNames(Recovered(before, es), es[i]) && s != Linked && (s == Unsafe <==> StatusOf(before, es[i]) == Unsafe)
    {
      RecoveredStatus(before, es, es[i]);
      assert IsLeftover(before, es, es[i].Temporary()) <==> StatusOf(before, es[i]) == Linked;
    }
  }
}
