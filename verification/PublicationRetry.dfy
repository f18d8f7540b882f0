/** What a crash at any micro-step of a group publication means for the next attempt. */
module PublicationRetry {
  import opened Inodes
  import opened StorageQuota
  import opened Publication
  import opened PublicationGroup

  // ----- the capacity that was admitted is never exceeded

  /** An admitted group stays inside its limit at every micro-step. */
  lemma StaysAdmitted(before: Root, d: Root, es: seq<Entry>, other: Demand, limit: Demand, block: Block)
    requires Admitted(before, es, other, limit, block)
    requires Underway(Recovered(before, es), d, es, block)
    ensures other.Plus(Held(d, block)).Within(limit)
  {
  }

  /** Recovery alone never adds to what is held. */
  lemma RecoveryHoldsLess(before: Root, d: Root, es: seq<Entry>, block: Block)
    requires Recovering(before, d, es)
    ensures Held(d, block).Within(Held(before, block))
  {
    Subset(d.names.Keys, before.names.Keys);
  }

  // ----- a crash during recovery

  lemma RecoveredAgain(before: Root, es: seq<Entry>, i: nat)
    requires i <= |es|
    ensures Recovered(Recovered(before, es[..i]), es) == Recovered(before, es)
  {
    var d := Recovered(before, es[..i]);
    forall e | e in es
      ensures StatusOf(d, e) == Linked <==> StatusOf(before, e) == Linked && e !in es[..i]
    {
      RecoveredStatus(before, es[..i], e);
    }
    assert forall e | e in es[..i] :: e in es;
  }

  /** A crash between two recoveries changes nothing about the next attempt. */
  lemma RetryAfterRecovery(
      before: Root, d: Root, es: seq<Entry>, fits: Decoder, other: Demand, limit: Demand, block: Block)
    requires Recovering(before, d, es)
    ensures MayPublishGroup(d, es, fits, other, limit, block) <==>
      MayPublishGroup(before, es, fits, other, limit, block)
  {
    var i :| 0 <= i <= |es| && d == Recovered(before, es[..i]);
    RecoveredAgain(before, es, i);
    forall e | e in es ensures StatusOf(d, e) == Unsafe <==> StatusOf(before, e) == Unsafe {
      RecoveredStatus(before, es[..i], e);
    }
  }

  // ----- a crash during publication

  predicate AllFit(d: Root, es: seq<Entry>, fits: Decoder)
  {
    forall e | e in es && StatusOf(d, e) != Absent :: fits(e.parent, e.file, e.raw)
  }

  /** Record `k` is completely staged beside an earlier record of the group. */
  predicate HasSibling(d: Root, es: seq<Entry>, k: nat)
  {
    k < |es| && StatusOf(d, es[k]) == Staged && exists i | 0 <= i < k :: es[i].parent == es[k].parent
  }

  /** Record `k` is a deletion marker that is completely staged. */
  predicate HasMarkerStage(d: Root, es: seq<Entry>, k: nat)
  {
    k < |es| && StatusOf(d, es[k]) == Staged && es[k].parent == Deleting
  }

  /** What the next attempt needs of the record that was under way, and of the ledger's decoder. */
  predicate Retryable(d: Root, es: seq<Entry>, k: nat, fits: Decoder)
  {
    && !(k < |es| && Torn(d, es[k]))
    && !HasSibling(d, es, k) && !HasMarkerStage(d, es, k)
    && AllFit(d, es, fits)
  }

  lemma {:induction false} DemandsRecovered(d: Root, all: seq<Entry>, es: seq<Entry>, block: Block)
    ensures Demands(Recovered(d, all), es, block) == Demands(d, es, block)
  {
    if es != [] {
      RemainingRecovered(d, all, es[0], block);
      DemandsRecovered(d, all, es[1..], block);
    }
    hide Recovered, Remaining;
  }

  lemma RemainingRecovered(d: Root, all: seq<Entry>, e: Entry, block: Block)
    ensures Remaining(Recovered(d, all), e, block) == Remaining(d, e, block)
  {
    hide RoundUp;
    assert !IsLeftover(d, all, e.Target());
    if e.Target() !in d.names {
      assert !IsLeftover(d, all, e.Temporary());
      hide IsLeftover, StatusOf;
    }
  }

  lemma StatusAfter(r: Root, d: Root, es: seq<Entry>, k: nat, i: nat, block: Block)
    requires Publishable(r, es) && GroupMidway(r, d, es, k, block) && i < |es|
    requires k < |es| ==> !Torn(d, es[k])
    ensures StatusOf(d, es[i]) != Unsafe
    ensures var s := StatusOf(Recovered(d, es), es[i]);
            s == (if StatusOf(d, es[i]) == Linked then Published else StatusOf(d, es[i])) && s != Linked
    ensures i < k ==> StatusOf(d, es[i]) == Published
    ensures i > k ==> StatusOf(d, es[i]) == StatusOf(r, es[i])
  {
    RecoveredStatus(d, es, es[i]);
  }

  /** A name outside the group shows after the crash what it showed before. */
  lemma ForeignName(r: Root, d: Root, es: seq<Entry>, n: Name)
    requires GroupFramed(r, d, es) && !Owned(es, n)
    ensures n in Recovered(d, es).names <==> n in r.names
    ensures n in r.names ==> Recovered(d, es).names[n] == r.names[n]
  {
  }

  /** A foreign stage lies in none of the directories of the group. */
  lemma ForeignStage(r: Root, es: seq<Entry>, n: Name, i: nat)
    requires n in r.names && n.Stage? && !Owned(es, n) && i < |es| && !Blocked(r, es, i)
    ensures n.parent != es[i].parent
  {
    assert forall j | 0 <= j <= i :: es[j] in es;
  }

  ghost predicate Crash(r: Root, d: Root, es: seq<Entry>, k: nat, block: Block)
  {
    && Publishable(r, es)
    && GroupMidway(r, d, es, k, block)
    && (k < |es| ==> !Torn(d, es[k]))
    && forall j | 0 <= j < |es| :: !Blocked(r, es, j)
  }

  lemma OwnNameIsSingle(r: Root, d: Root, es: seq<Entry>, k: nat, n: Name, m: Name, block: Block)
    requires Crash(r, d, es, k, block) && Owned(es, n)
    requires var q := Recovered(d, es); n in q.names && m in q.names && q.names[n] == q.names[m]
    ensures n == m
  {
    var i :| 0 <= i < |es| && (n == es[i].Target() || n == es[i].Temporary());
    StatusAfter(r, d, es, k, i, block);
  }

  lemma SingleAfter(r: Root, d: Root, es: seq<Entry>, k: nat, block: Block)
    requires Crash(r, d, es, k, block) && Single(r)
    ensures Single(Recovered(d, es))
  {
    var q := Recovered(d, es);
    forall n, m | n in q.names && m in q.names && q.names[n] == q.names[m] ensures n == m {
      if Owned(es, n) {
        OwnNameIsSingle(r, d, es, k, n, m, block);
      } else if Owned(es, m) {
        OwnNameIsSingle(r, d, es, k, m, n, block);
      } else {
        ForeignName(r, d, es, n);
        ForeignName(r, d, es, m);
      }
    }
  }

  /** Two stages of one final name are one stage. */
  lemma OneStagePerName(r: Root, d: Root, es: seq<Entry>, k: nat, i: nat, m: Name, block: Block)
    requires Crash(r, d, es, k, block) && i < |es|
    requires m in Recovered(d, es).names && m.Stage? && m.parent == es[i].parent && m.file == es[i].file
    ensures m == es[i].Temporary()
  {
    if Owned(es, m) {
      var j :| 0 <= j < |es| && m == es[j].Temporary();
      assert es[i].Target() == es[j].Target();
    } else {
      ForeignName(r, d, es, m);
      ForeignStage(r, es, m, i);
    }
  }

  lemma OwnTargetFits(r: Root, d: Root, es: seq<Entry>, k: nat, i: nat, fits: Decoder, block: Block)
    requires Crash(r, d, es, k, block) && i < |es| && |es[i].raw| <= MAX_METADATA
    requires es[i].Target() in Recovered(d, es).names
    ensures StatusOf(d, es[i]) != Absent
    ensures NameFits(Recovered(d, es), es[i].Target(), fits) <==> fits(es[i].parent, es[i].file, es[i].raw)
  {
    StatusAfter(r, d, es, k, i, block);
  }

  lemma OwnStageFits(r: Root, d: Root, es: seq<Entry>, k: nat, i: nat, fits: Decoder, block: Block)
    requires Crash(r, d, es, k, block) && i < |es| && |es[i].raw| <= MAX_METADATA
    requires es[i].Temporary() in Recovered(d, es).names
    ensures StatusOf(d, es[i]) != Absent
    ensures NameFits(Recovered(d, es), es[i].Temporary(), fits) <==>
      es[i].parent != Deleting && fits(es[i].parent, es[i].file, es[i].raw)
  {
    var q, n := Recovered(d, es), es[i].Temporary();
    StatusAfter(r, d, es, k, i, block);
    StageOnDisk(q, es[i]);
    assert es[i].Target() !in q.names;
    forall m | m in q.names && m.Stage? && m.parent == n.parent && m.file == n.file ensures m == n {
      OneStagePerName(r, d, es, k, i, m, block);
    }
  }

  /** A staged deletion marker can only be the record under way. */
  lemma OnlyStageUnderWay(r: Root, d: Root, es: seq<Entry>, k: nat, i: nat, fits: Decoder, block: Block)
    requires Crash(r, d, es, k, block) && i < |es| && LedgerFits(r, fits)
    requires es[i].Temporary() in Recovered(d, es).names && es[i].parent == Deleting
    ensures i == k && StatusOf(d, es[k]) == Staged
  {
    StatusAfter(r, d, es, k, i, block);
    StageOnDisk(Recovered(d, es), es[i]);
    if i > k { StageOnDisk(r, es[i]); }
  }

  /** The names of one record fit the ledger if its bytes do, and a marker is not staged. */
  lemma OwnNameFits(r: Root, d: Root, es: seq<Entry>, k: nat, i: nat, n: Name, fits: Decoder, block: Block)
    requires Crash(r, d, es, k, block) && i < |es| && |es[i].raw| <= MAX_METADATA && LedgerFits(r, fits)
    requires n in Recovered(d, es).names && (n == es[i].Target() || n == es[i].Temporary())
    ensures StatusOf(d, es[i]) != Absent
    ensures NameFits(Recovered(d, es), n, fits) <==>
      fits(es[i].parent, es[i].file, es[i].raw) && !(n.Stage? && n.parent == Deleting)
    ensures n.Stage? && n.parent == Deleting ==> HasMarkerStage(d, es, k)
  {
    if n.Final? {
      OwnTargetFits(r, d, es, k, i, fits, block);
    } else {
      OwnStageFits(r, d, es, k, i, fits, block);
      if n.parent == Deleting { OnlyStageUnderWay(r, d, es, k, i, fits, block); }
    }
  }

  lemma ForeignNameFits(r: Root, d: Root, es: seq<Entry>, k: nat, n: Name, fits: Decoder, block: Block)
    requires Crash(r, d, es, k, block) && n in Recovered(d, es).names && !Owned(es, n)
    requires LedgerFits(r, fits)
    ensures NameFits(Recovered(d, es), n, fits)
  {
    var q := Recovered(d, es);
    ForeignName(r, d, es, n);
    assert NameFits(r, n, fits);
    if n.Stage? {
      forall m: Name | m.parent == n.parent ensures !Owned(es, m) {
        if Owned(es, m) {
          var i :| 0 <= i < |es| && (m == es[i].Target() || m == es[i].Temporary());
          ForeignStage(r, es, n, i);
        }
      }
      ForeignName(r, d, es, Final(n.parent, n.file));
      forall m | m in q.names && m.Stage? && m.parent == n.parent && m.file == n.file ensures m == n {
        ForeignName(r, d, es, m);
      }
    }
  }

  lemma LedgerAfter(r: Root, d: Root, es: seq<Entry>, k: nat, fits: Decoder, block: Block)
    requires Crash(r, d, es, k, block) && LedgerFits(r, fits)
    requires forall e | e in es :: |e.raw| <= MAX_METADATA
    ensures LedgerFits(Recovered(d, es), fits) <==> AllFit(d, es, fits) && !HasMarkerStage(d, es, k)
  {
    var q := Recovered(d, es);
    if HasMarkerStage(d, es, k) {
      StatusAfter(r, d, es, k, k, block);
      StageOnDisk(q, es[k]);
      OwnNameFits(r, d, es, k, k, es[k].Temporary(), fits, block);
    } else if AllFit(d, es, fits) {
      forall n | n in q.names ensures NameFits(q, n, fits) {
        if Owned(es, n) {
          var i :| 0 <= i < |es| && (n == es[i].Target() || n == es[i].Temporary());
          OwnNameFits(r, d, es, k, i, n, fits, block);
        } else {
          ForeignNameFits(r, d, es, k, n, fits, block);
        }
      }
    } else {
      var i :| 0 <= i < |es| && StatusOf(d, es[i]) != Absent && !fits(es[i].parent, es[i].file, es[i].raw);
      StatusAfter(r, d, es, k, i, block);
      var n := if es[i].Target() in q.names then es[i].Target() else es[i].Temporary();
      OwnNameFits(r, d, es, k, i, n, fits, block);
    }
  }

  lemma LaterStageBlocks(r: Root, es: seq<Entry>, j: nat, i: nat)
    requires j < i < |es| && Distinct(es) && es[i].Temporary() in r.names && es[i].parent == es[j].parent
    ensures Blocked(r, es, j)
  {
    forall l | 0 <= l <= j ensures es[i].Temporary() != es[l].Temporary() {
      assert es[l].Target() != es[i].Target();
    }
  }

  lemma OwnBlocker(r: Root, d: Root, es: seq<Entry>, k: nat, j: nat, i: nat, block: Block)
    requires Crash(r, d, es, k, block) && j < i < |es|
    requires es[i].Temporary() in Recovered(d, es).names && es[i].parent == es[j].parent
    ensures i == k && StatusOf(d, es[k]) == Staged
  {
    StatusAfter(r, d, es, k, i, block);
    StageOnDisk(Recovered(d, es), es[i]);
    if i > k {
      StageOnDisk(r, es[i]);
      LaterStageBlocks(r, es, j, i);
    }
  }

  /** After the crash only the complete stage under way can be in the way of an earlier record. */
  lemma BlockerAfter(r: Root, d: Root, es: seq<Entry>, k: nat, j: nat, n: Name, block: Block)
    requires Crash(r, d, es, k, block) && j < |es|
    requires n in Recovered(d, es).names && n.Stage? && n.parent == es[j].parent
    requires forall i | 0 <= i <= j :: n != es[i].Temporary()
    ensures j < k < |es| && StatusOf(d, es[k]) == Staged && n == es[k].Temporary()
  {
    if Owned(es, n) {
      var i :| 0 <= i < |es| && n == es[i].Temporary();
      OwnBlocker(r, d, es, k, j, i, block);
    } else {
      ForeignName(r, d, es, n);
      ForeignStage(r, es, n, j);
    }
  }

  lemma BlockedAfter(r: Root, d: Root, es: seq<Entry>, k: nat, j: nat, block: Block)
    requires Crash(r, d, es, k, block) && j < |es|
    ensures Blocked(Recovered(d, es), es, j) <==>
      j < k < |es| && StatusOf(d, es[k]) == Staged && es[j].parent == es[k].parent
  {
    var q := Recovered(d, es);
    if Blocked(q, es, j) {
      var n :| n in q.names && n.Stage? && n.parent == es[j].parent && forall i | 0 <= i <= j :: n != es[i].Temporary();
      BlockerAfter(r, d, es, k, j, n, block);
    }
    if j < k < |es| && StatusOf(d, es[k]) == Staged && es[j].parent == es[k].parent {
      StatusAfter(r, d, es, k, k, block);
      StageOnDisk(q, es[k]);
      forall i | 0 <= i <= j ensures es[k].Temporary() != es[i].Temporary() {
        assert es[i].Target() != es[k].Target();
      }
    }
  }

  lemma {:induction false} AdmittedAfter(
      r: Root, d: Root, es: seq<Entry>, k: nat, other: Demand, limit: Demand, block: Block)
    requires GroupMidway(r, d, es, k, block)
    requires Admits(other.Plus(Held(r, block)), Demands(r, es, block), limit)
    ensures Admitted(d, es, other, limit, block)
  {
    DemandsRecovered(d, es, es, block);
    Subset(Recovered(d, es).names.Keys, d.names.Keys);
  }

  /**
   After a crash during the publication of an admitted group the same call goes through exactly if
   the stage under way is not torn, is not a complete stage beside which an earlier record of the
   group is published, is not a staged deletion marker, and the ledger's decoder accepts every record
   of the group that is there.
   */
  lemma GroupRetryConverges(before: Root, d: Root, es: seq<Entry>, k: nat, fits: Decoder,
                            other: Demand, limit: Demand, block: Block)
    requires before.Valid() && Distinct(es) && MayPublishGroup(before, es, fits, other, limit, block)
    requires GroupMidway(Recovered(before, es), d, es, k, block)
    ensures MayPublishGroup(d, es, fits, other, limit, block) <==> Retryable(d, es, k, fits)
  {
    var r := Recovered(before, es);
    AfterRecovery(before, es);
    if k < |es| && Torn(d, es[k]) {
      assert StatusOf(d, es[k]) == Unsafe;
    } else {
      RetryOfIntactStage(r, d, es, k, fits, other, limit, block);
    }
  }

  lemma SafeAfter(r: Root, d: Root, es: seq<Entry>, k: nat, block: Block)
    requires Crash(r, d, es, k, block)
    ensures forall e | e in es :: StatusOf(d, e) != Unsafe
  {
    forall e | e in es ensures StatusOf(d, e) != Unsafe {
      var i :| 0 <= i < |es| && es[i] == e;
      StatusAfter(r, d, es, k, i, block);
    }
  }

  lemma SomeBlockedAfter(r: Root, d: Root, es: seq<Entry>, k: nat, block: Block)
    requires Crash(r, d, es, k, block)
    ensures HasSibling(d, es, k) <==> exists j | 0 <= j < |es| :: Blocked(Recovered(d, es), es, j)
  {
    forall j | 0 <= j < |es|
      ensures Blocked(Recovered(d, es), es, j) <==>
        j < k < |es| && StatusOf(d, es[k]) == Staged && es[j].parent == es[k].parent
    {
      BlockedAfter(r, d, es, k, j, block);
    }
    if HasSibling(d, es, k) {
      var i :| 0 <= i < k && es[i].parent == es[k].parent;
      assert Blocked(Recovered(d, es), es, i);
    }
  }

  lemma {:induction false} RetryOfIntactStage(r: Root, d: Root, es: seq<Entry>, k: nat, fits: Decoder,
                           other: Demand, limit: Demand, block: Block)
    requires Crash(r, d, es, k, block) && Clean(r, fits)
    requires forall e | e in es :: |e.raw| <= MAX_METADATA
    requires Admits(other.Plus(Held(r, block)), Demands(r, es, block), limit)
    ensures MayPublishGroup(d, es, fits, other, limit, block) <==> Retryable(d, es, k, fits)
  {
    SingleAfter(r, d, es, k, block);
    LedgerAfter(r, d, es, k, fits, block);
    AdmittedAfter(r, d, es, k, other, limit, block);
    SafeAfter(r, d, es, k, block);
    SomeBlockedAfter(r, d, es, k, block);
  }

  /** A record under a name that its ledger's decoder does not accept closes the ledger for every later group. */
  lemma UnfitRecordClosesLedger(d: Root, e: Entry, es: seq<Entry>, fits: Decoder,
                                other: Demand, limit: Demand, block: Block)
    requires StatusOf(d, e) == Published && !fits(e.parent, e.file, e.raw)
    ensures !MayPublishGroup(d, es, fits, other, limit, block)
  {
    assert !IsLeftover(d, es, e.Target());
    assert e.Target() in Recovered(d, es).names && !NameFits(Recovered(d, es), e.Target(), fits);
  }

  // ----- the sibling stage: a concrete crash

  const EMPTY: Root := Directory(map[], [])

  /** The first record is published, the second is completely staged but not linked yet. */
  function SecondStaged(a: Entry, b: Entry): Root
  {
    Directory(map[a.Target() := 0, b.Temporary() := 1], [Inode(a.raw, true), Inode(b.raw, true)])
  }

  lemma EmptyIsClean(es: seq<Entry>, fits: Decoder)
    ensures Recovered(EMPTY, es) == EMPTY && EMPTY.Valid() && Clean(EMPTY, fits)
    ensures forall e | e in es :: StatusOf(EMPTY, e) == Absent
    ensures forall j | 0 <= j < |es| :: !Blocked(EMPTY, es, j)
  {
    assert Recovered(EMPTY, es) == EMPTY;
  }

  lemma EmptyAdmits(a: Entry, b: Entry, fits: Decoder, limit: Demand, block: Block)
    requires a.Target() != b.Target() && |a.raw| <= MAX_METADATA && |b.raw| <= MAX_METADATA
    requires Demand(RoundUp(|a.raw|, block) + RoundUp(|b.raw|, block), 4).Within(limit)
    ensures MayPublishGroup(EMPTY, [a, b], fits, NOTHING, limit, block)
  {
    EmptyIsClean([a, b], fits);
    EmptyRemaining(a, b, block);
    assert Admits(NOTHING.Plus(Held(EMPTY, block)), Demands(EMPTY, [a, b], block), limit);
  }

  lemma {:induction false} PairDemands(d: Root, a: Entry, b: Entry, block: Block)
    ensures Demands(d, [a, b], block) == Remaining(d, a, block).Plus(Remaining(d, b, block))
  {
    hide Remaining;
    assert [a, b][1..] == [b];
    assert [b][1..] == [];
    assert Demands(d, [], block) == NOTHING;
    assert Demands(d, [b], block) == Remaining(d, b, block);
  }

  lemma PairStatus(a: Entry, b: Entry)
    requires a.Target() != b.Target()
    ensures StatusOf(SecondStaged(a, b), a) == Published && StatusOf(SecondStaged(a, b), b) == Staged
  {
    var d := SecondStaged(a, b);
    assert a.Target() in d.names && d.names[a.Target()] == 0 && b.Temporary() in d.names && d.names[b.Temporary()] == 1;
    assert a.Temporary() !in d.names && b.Target() !in d.names;
    assert d.IsOnlyName(a.Target()) && d.IsOnlyName(b.Temporary());
  }

  lemma PairFramed(a: Entry, b: Entry)
    requires a.Target() != b.Target()
    ensures GroupFramed(EMPTY, SecondStaged(a, b), [a, b]) && SecondStaged(a, b).Valid()
  {
    var d := SecondStaged(a, b);
    assert d.names[a.Target()] == 0 && d.names[b.Temporary()] == 1;
    assert d.HasName(0) && d.HasName(1);
    assert a in [a, b] && b in [a, b];
  }

  lemma FirstRemaining(a: Entry, b: Entry, block: Block)
    requires a.Target() != b.Target()
    ensures Remaining(SecondStaged(a, b), a, block) == NOTHING
  {
    assert a.Target() in SecondStaged(a, b).names;
  }

  lemma SecondRemaining(a: Entry, b: Entry, block: Block)
    requires a.Target() != b.Target()
    ensures Remaining(SecondStaged(a, b), b, block) == Demand(0, 1)
  {
    var d := SecondStaged(a, b);
    assert b.Temporary() in d.names && d.names[b.Temporary()] == 1;
  }

  lemma {:induction false} PairRemaining(a: Entry, b: Entry, block: Block)
    requires a.Target() != b.Target()
    ensures Demands(SecondStaged(a, b), [a, b], block) == Demand(0, 1)
  {
    hide Remaining, SecondStaged, Demands, RoundUp;
    FirstRemaining(a, b, block);
    SecondRemaining(a, b, block);
    PairDemands(SecondStaged(a, b), a, b, block);
  }

  lemma {:induction false} EmptyRemaining(a: Entry, b: Entry, block: Block)
    ensures Demands(EMPTY, [a, b], block) == Demand(RoundUp(|a.raw|, block) + RoundUp(|b.raw|, block), 4)
    ensures Held(EMPTY, block) == NOTHING
  {
    PairDemands(EMPTY, a, b, block);
  }

  lemma CrashIsReachable(a: Entry, b: Entry, block: Block)
    requires a.Target() != b.Target()
    ensures GroupMidway(EMPTY, SecondStaged(a, b), [a, b], 1, block)
  {
    PairStatus(a, b);
    PairFramed(a, b);
    PairRemaining(a, b, block);
    EmptyRemaining(a, b, block);
    PairHeld(a, b, block);
    assert [a, b][0] == a && [a, b][1] == b;
  }

  lemma PairHeld(a: Entry, b: Entry, block: Block)
    ensures Held(SecondStaged(a, b), block) == Demand(RoundUp(|a.raw|, block) + RoundUp(|b.raw|, block), 2)
  {
    var d := SecondStaged(a, b);
    assert d.inodes[1..] == [Inode(b.raw, true)];
    assert Space([Inode(b.raw, true)], block) == RoundUp(|b.raw|, block);
    assert d.names.Keys == {a.Target(), b.Temporary()};
  }

  /**
   From an empty ledger two records of one directory go through; from the directory that a crash
   leaves just before the second link, the same call is refused by the stage that it should finish.
   */
  lemma SiblingStageBlocksRetry(a: Entry, b: Entry, fits: Decoder, limit: Demand, block: Block)
    requires a.Target() != b.Target() && a.parent == b.parent
    requires |a.raw| <= MAX_METADATA && |b.raw| <= MAX_METADATA
    requires Demand(RoundUp(|a.raw|, block) + RoundUp(|b.raw|, block), 4).Within(limit)
    ensures MayPublishGroup(EMPTY, [a, b], fits, NOTHING, limit, block)
    ensures Underway(Recovered(EMPTY, [a, b]), SecondStaged(a, b), [a, b], block)
    ensures !MayPublishGroup(SecondStaged(a, b), [a, b], fits, NOTHING, limit, block)
  {
    hide RoundUp, Demands, Held, SecondStaged, MayPublishGroup, GroupMidway, StatusOf, Clean, Recovered, Torn, AllFit;
    EmptyIsClean([a, b], fits);
    PairStatus(a, b);
    EmptyAdmits(a, b, fits, limit, block);
    CrashIsReachable(a, b, block);
    assert [a, b][0].parent == [a, b][1].parent;
    assert HasSibling(SecondStaged(a, b), [a, b], 1);
    GroupRetryConverges(EMPTY, SecondStaged(a, b), [a, b], 1, fits, NOTHING, limit, block);
  }
}
