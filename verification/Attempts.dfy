/**
 The callers of the group publication: what each of them looks at before it enters the publication,
 and what its next attempt makes of a crash at any micro-step inside.  A caller that reads a record
 or measures its root before linked stages are recovered does not get over the moment at which a
 record has two names.
 */
module Attempts {
  import opened Inodes
  import opened StorageQuota
  import opened Publication
  import opened PublicationGroup
  import opened PublicationRetry

  /** A metadata root's decoders, what else it holds, its limits and the block size. */
  datatype Terms = Terms(fits: Decoder, other: Demand, hard: Demand, soft: Demand, block: Block)

  predicate Passes(d: Root, es: seq<Entry>, t: Terms)
  {
    MayPublishGroup(d, es, t.fits, t.other, t.hard, t.block)
  }

  /** The final name shows exactly these bytes and is the only name of its file. */
  predicate IsRegular(d: Root, e: Entry)
  {
    d.Contains(e.Target(), e.raw) && d.IsOnlyName(e.Target())
  }

  /** Admission of a new chain: the root as it stands is clean and below its soft limit. */
  predicate OpensChain(d: Root, t: Terms)
  {
    Clean(d, t.fits) && SoftOpen(t.other.Plus(Held(d, t.block)), t.soft)
  }

  lemma RecoveredStays(d: Root, es: seq<Entry>)
    requires forall e | e in es :: StatusOf(d, e) != Linked
    ensures Recovered(d, es) == d
  {
    assert forall n | n in d.names :: !IsLeftover(d, es, n);
    assert Recovered(d, es).names == d.names;
  }

  /** A linked pair anywhere in a root closes it to every new chain. */
  lemma LinkedClosesChain(d: Root, e: Entry, t: Terms)
    requires StatusOf(d, e) == Linked
    ensures !OpensChain(d, t)
  {
    assert d.names[e.Target()] == d.names[e.Temporary()];
  }

  /** Whatever is under way, the records before it are published and those after it are as they were. */
  lemma AdmittedIsPublishable(before: Root, es: seq<Entry>, t: Terms)
    requires before.Valid() && Distinct(es) && Passes(before, es, t)
    ensures Publishable(Recovered(before, es), es)
  {
    forall e | e in es ensures Resumable(before, e) {
    }
    AfterRecovery(before, es);
  }

  // ----- the prepared record: its attempt looks at both names first

  predicate MayPrepare(d: Root, e: Entry, t: Terms, sharedOpen: bool)
  {
    && (e.Target() !in d.names && e.Temporary() !in d.names ==> OpensChain(d, t) && sharedOpen)
    && Passes(d, [e], t)
  }

  /** Preparation goes on from everything but a torn stage; only with nothing there it asks for room again. */
  lemma PrepareRetryIff(before: Root, d: Root, e: Entry, k: nat, t: Terms, sharedOpen: bool)
    requires before.Valid() && e.parent == Prepared && Passes(before, [e], t)
    requires GroupMidway(Recovered(before, [e]), d, [e], k, t.block)
    ensures MayPrepare(d, e, t, sharedOpen) <==>
      && !(k == 0 && Torn(d, e))
      && AllFit(d, [e], t.fits)
      && (StatusOf(d, e) == Absent ==> SoftOpen(t.other.Plus(Held(d, t.block)), t.soft) && sharedOpen)
  {
    GroupRetryConverges(before, d, [e], k, t.fits, t.other, t.hard, t.block);
    assert Retryable(d, [e], k, t.fits) <==> !(k == 0 && Torn(d, e)) && AllFit(d, [e], t.fits);
    hide Retryable, GroupMidway;
    if StatusOf(d, e) == Absent { RecoveredStays(d, [e]); }
  }

  // ----- the agent's barriers and intent: its attempt reads the intent first, or measures its root

  predicate MayConsume(d: Root, es: seq<Entry>, t: Terms, acksOpen: bool)
    requires es != []
  {
    var intent := es[|es| - 1];
    && (if intent.Target() in d.names then IsRegular(d, intent) else OpensChain(d, t) && acksOpen)
    && Passes(d, es, t)
  }

  predicate IsLinked(d: Root, es: seq<Entry>, k: nat)
  {
    k < |es| && StatusOf(d, es[k]) == Linked
  }

  /** The record under way is the only one that can be linked. */
  lemma OnlyLinkUnderWay(r: Root, d: Root, es: seq<Entry>, k: nat, block: Block)
    requires Publishable(r, es) && GroupMidway(r, d, es, k, block) && !IsLinked(d, es, k)
    ensures forall e | e in es :: StatusOf(d, e) != Linked
  {
    forall e | e in es ensures StatusOf(d, e) != Linked {
      var i :| 0 <= i < |es| && es[i] == e;
    }
  }

  lemma ReadsIntent(d: Root, e: Entry)
    requires StatusOf(d, e) != Unsafe && e.Target() in d.names
    ensures IsRegular(d, e) <==> StatusOf(d, e) != Linked
  {
    if StatusOf(d, e) == Linked { assert d.names[e.Temporary()] == d.names[e.Target()]; }
  }

  /**
   A consumption whose records a crash cut off goes on exactly if the same publication would, and the
   intent, if it is there, has one name; before the intent is there no record of the group may have
   two names, and the root must be open to a new chain as it stands.
   */
  lemma ConsumeRetryIff(before: Root, d: Root, es: seq<Entry>, k: nat, t: Terms, acksOpen: bool)
    requires before.Valid() && Distinct(es) && es != [] && Passes(before, es, t)
    requires GroupMidway(Recovered(before, es), d, es, k, t.block)
    ensures var intent := es[|es| - 1];
      MayConsume(d, es, t, acksOpen) <==>
        && Retryable(d, es, k, t.fits)
        && if intent.Target() in d.names then StatusOf(d, intent) != Linked
           else !IsLinked(d, es, k) && SoftOpen(t.other.Plus(Held(d, t.block)), t.soft) && acksOpen
  {
    var intent := es[|es| - 1];
    GroupRetryConverges(before, d, es, k, t.fits, t.other, t.hard, t.block);
    AdmittedIsPublishable(before, es, t);
    if Passes(d, es, t) {
      assert StatusOf(d, intent) != Unsafe;
      if intent.Target() in d.names {
        ReadsIntent(d, intent);
      } else if IsLinked(d, es, k) {
        LinkedClosesChain(d, es[k], t);
      } else {
        OnlyLinkUnderWay(Recovered(before, es), d, es, k, t.block);
        RecoveredStays(d, es);
      }
    }
    hide Retryable, GroupMidway;
  }

  // ----- records that a later attempt brings with another time

  /** The same names with other bytes, as a later commit or acknowledgement has them. */
  function Rewritten(es: seq<Entry>, text: Bytes): (later: seq<Entry>)
    ensures |later| == |es| && forall i | 0 <= i < |es| :: later[i] == es[i].(raw := text)
  {
    seq(|es|, i requires 0 <= i < |es| => es[i].(raw := text))
  }

  predicate NoneThere(d: Root, es: seq<Entry>)
  {
    forall e | e in es :: StatusOf(d, e) == Absent
  }

  /** As long as nothing of the group is there, nothing has happened. */
  lemma NothingHappened(r: Root, d: Root, es: seq<Entry>, k: nat, block: Block)
    requires r.Valid() && GroupMidway(r, d, es, k, block) && NoneThere(r, es) && NoneThere(d, es)
    ensures d == r
  {
    forall n ensures n in d.names <==> n in r.names {
      if Owned(es, n) {
        var e :| e in es && (n == e.Target() || n == e.Temporary());
        assert StatusOf(d, e) == Absent && StatusOf(r, e) == Absent;
      }
    }
    assert d.names == r.names by {
      forall n | n in r.names ensures d.names[n] == r.names[n] {
        assert !Owned(es, n);
      }
    }
    if d.inodes != [] {
      assert d.HasName(|d.inodes| - 1);
      var n :| n in d.names && d.names[n] == |d.inodes| - 1;
      assert n in r.names;
    }
    assert d.inodes == r.inodes;
  }

  /** Where one of the records is there with its own bytes, others are refused. */
  lemma OtherBytesRefused(d: Root, es: seq<Entry>, i: nat, text: Bytes, t: Terms)
    requires i < |es| && (forall e | e in es :: e.raw != text)
    requires StatusOf(d, es[i]) != Absent && (StatusOf(d, es[i]) != Unsafe || Torn(d, es[i]))
    ensures !Passes(d, Rewritten(es, text), t)
  {
    var later := Rewritten(es, text);
    if es[i].Target() in d.names {
      assert d.Contains(es[i].Target(), es[i].raw) && later[i].Target() == es[i].Target();
      assert StatusOf(d, later[i]) == Unsafe && later[i] in later;
    } else {
      var n, q := es[i].Temporary(), Recovered(d, later);
      forall j | 0 <= j <= i ensures n != later[j].Temporary() {
        assert es[i] in es;
      }
      assert n in q.names by {
        assert forall e | e in later :: n != e.Temporary();
      }
      assert Blocked(q, later, i);
    }
  }

  lemma SomethingThere(r: Root, d: Root, es: seq<Entry>, k: nat, block: Block) returns (i: nat)
    requires GroupMidway(r, d, es, k, block) && NoneThere(r, es) && !NoneThere(d, es)
    ensures i < |es| && StatusOf(d, es[i]) != Absent && (StatusOf(d, es[i]) != Unsafe || Torn(d, es[i]))
  {
    hide StatusOf, Torn, GroupFramed, Held, Demands;
    var e :| e in es && StatusOf(d, e) != Absent;
    i :| 0 <= i < |es| && es[i] == e;
    assert StatusOf(r, es[i]) == Absent;
  }

  lemma NoneLinked(before: Root, es: seq<Entry>)
    requires NoneThere(before, es)
    ensures Recovered(before, es) == before
  {
    RecoveredStays(before, es);
  }

  /** A fresh group that a crash cut off is taken up with other bytes exactly if nothing had been created. */
  lemma LaterGroupPassesIff(before: Root, d: Root, es: seq<Entry>, k: nat, text: Bytes, t: Terms)
    requires before.Valid() && NoneThere(before, es) && (forall e | e in es :: e.raw != text)
    requires Passes(before, Rewritten(es, text), t)
    requires GroupMidway(before, d, es, k, t.block)
    ensures Passes(d, Rewritten(es, text), t) <==> NoneThere(d, es)
  {
    if NoneThere(d, es) {
      NothingHappened(before, d, es, k, t.block);
    } else {
      var i := SomethingThere(before, d, es, k, t.block);
      OtherBytesRefused(d, es, i, text, t);
    }
  }

  // ----- the acknowledgement: both coordinators read it

  /** Either it is there to be read, or the agent's next attempt publishes one with its own time. */
  predicate AckGoesOn(d: Root, e: Entry, text: Bytes, t: Terms)
  {
    if e.Target() in d.names then IsRegular(d, e) else Passes(d, Rewritten([e], text), t)
  }

  /** An acknowledgement that a crash cut off goes on exactly if its stage was not created, or is gone again. */
  lemma AckRetryIff(before: Root, d: Root, e: Entry, k: nat, text: Bytes, t: Terms)
    requires before.Valid() && StatusOf(before, e) == Absent && e.raw != text
    requires Passes(before, Rewritten([e], text), t)
    requires GroupMidway(before, d, [e], k, t.block)
    ensures AckGoesOn(d, e, text, t) <==> StatusOf(d, e) == Absent || StatusOf(d, e) == Published
  {
    assert [e][0] == e;
    if e.Target() in d.names {
      ReadsIntent(d, e);
    } else {
      LaterGroupPassesIff(before, d, [e], k, text, t);
      assert NoneThere(d, [e]) <==> StatusOf(d, e) == Absent;
    }
  }

  // ----- the commit: the record, once it is there, is found and finished with its own time

  lemma BlockedByRest(r: Root, es: seq<Entry>, j: nat)
    requires j + 1 < |es| && es[0].Temporary() !in r.names
    ensures Blocked(r, es[1..], j) ==> Blocked(r, es, j + 1)
  {
    var rest := es[1..];
    if Blocked(r, rest, j) {
      var n :| n in r.names && n.Stage? && n.parent == rest[j].parent
        && forall i | 0 <= i <= j :: n != rest[i].Temporary();
      forall i | 0 <= i <= j + 1 ensures n != es[i].Temporary() {
        if i > 0 { assert es[i] == rest[i - 1]; }
      }
    }
  }

  lemma {:induction false} DropsFirst(d: Root, es: seq<Entry>, t: Terms)
    requires es != [] && Distinct(es) && StatusOf(d, es[0]) == Published && Passes(d, es, t)
    ensures Passes(d, es[1..], t)
  {
    var rest := es[1..];
    assert es == [es[0]] + rest;
    assert Recovered(d, rest) == Recovered(d, es) by {
      assert forall n | n in d.names :: IsLeftover(d, rest, n) <==> IsLeftover(d, es, n);
    }
    var r := Recovered(d, es);
    RecoveredStatus(d, es, es[0]);
    assert es[0].Temporary() !in r.names && es[0].Target() in r.names;
    forall j | 0 <= j < |rest| ensures !Blocked(r, rest, j) {
      BlockedByRest(r, es, j);
    }
    assert Demands(r, es, t.block) == Remaining(r, es[0], t.block).Plus(Demands(r, rest, t.block));
  }

  lemma {:induction false} DropsPublished(d: Root, es: seq<Entry>, n: nat, t: Terms)
    requires n <= |es| && Distinct(es) && Passes(d, es, t)
    requires forall i | 0 <= i < n :: StatusOf(d, es[i]) == Published
    ensures Passes(d, es[n..], t)
    decreases n
  {
    if n == 0 {
      assert es[0..] == es;
    } else {
      DropsFirst(d, es, t);
      hide Passes;
      DropsPublished(d, es[1..], n - 1, t);
      assert es[1..][n - 1..] == es[n..];
    }
  }

  /** The next cycle finishes a record that is there, and otherwise commits at its own time. */
  predicate CommitGoesOn(d: Root, es: seq<Entry>, text: Bytes, t: Terms)
    requires es != []
  {
    var record := es[|es| - 1];
    if record.Target() in d.names then Passes(d, [record], t) else Passes(d, Rewritten(es, text), t)
  }

  /**
   A commit that a crash cut off goes on exactly if nothing had been created, or the record itself has
   its final name and the ledger accepts all of the group.
   */
  lemma CommitRetryIff(before: Root, d: Root, es: seq<Entry>, k: nat, text: Bytes, t: Terms)
    requires before.Valid() && Distinct(es) && es != [] && NoneThere(before, es)
    requires (forall e | e in es :: e.raw != text && e.parent != Deleting)
    requires Passes(before, es, t) && Passes(before, Rewritten(es, text), t)
    requires GroupMidway(before, d, es, k, t.block)
    ensures CommitGoesOn(d, es, text, t) <==>
      || NoneThere(d, es)
      || (es[|es| - 1].Target() in d.names && AllFit(d, es, t.fits))
  {
    var record := es[|es| - 1];
    if record.Target() in d.names {
      RecordIsFinished(before, d, es, k, t);
    } else {
      LaterGroupPassesIff(before, d, es, k, text, t);
    }
  }

  lemma RecordIsFinished(before: Root, d: Root, es: seq<Entry>, k: nat, t: Terms)
    requires before.Valid() && Distinct(es) && es != [] && NoneThere(before, es)
    requires (forall e | e in es :: e.parent != Deleting) && Passes(before, es, t)
    requires GroupMidway(before, d, es, k, t.block) && es[|es| - 1].Target() in d.names
    ensures Passes(d, [es[|es| - 1]], t) <==> AllFit(d, es, t.fits)
    ensures !NoneThere(d, es)
  {
    var last := |es| - 1;
    hide GroupMidway, Retryable, MayPublishGroup, StatusOf, Torn, Recovered;
    NoneLinked(before, es);
    GroupRetryConverges(before, d, es, k, t.fits, t.other, t.hard, t.block);
    RecordComesLast(before, d, es, k, t);
    hide Passes, NoneThere;
    if AllFit(d, es, t.fits) {
      DropsPublished(d, es, last, t);
      assert es[last..] == [es[last]];
    } else {
      var e :| e in es && StatusOf(d, e) != Absent && !t.fits(e.parent, e.file, e.raw);
      UnfitNameCloses(d, e, [es[last]], t);
    }
  }

  /** Once the record has its name, every barrier is published, and nothing but the ledger can refuse the group. */
  lemma RecordComesLast(before: Root, d: Root, es: seq<Entry>, k: nat, t: Terms)
    requires es != [] && NoneThere(before, es) && forall e | e in es :: e.parent != Deleting
    requires GroupMidway(before, d, es, k, t.block) && es[|es| - 1].Target() in d.names
    ensures forall i | 0 <= i < |es| - 1 :: StatusOf(d, es[i]) == Published
    ensures forall e | e in es :: StatusOf(d, e) == Published || StatusOf(d, e) == Linked
    ensures es[|es| - 1] in es
    ensures Retryable(d, es, k, t.fits) <==> AllFit(d, es, t.fits)
  {
    hide StatusOf, GroupFramed, Held, Demands, Torn, AllFit, Retryable;
    RecordUnderWay(before, d, es, k, t);
    AllNamed(d, es, k);
    OnlyLedgerRefuses(d, es, k, t);
  }

  lemma AllNamed(d: Root, es: seq<Entry>, k: nat)
    requires es != [] && |es| - 1 <= k <= |es| && es[|es| - 1].Target() in d.names
    requires forall i | 0 <= i < k :: StatusOf(d, es[i]) == Published
    requires k < |es| ==> StatusOf(d, es[k]) != Unsafe || Torn(d, es[k])
    ensures forall e | e in es :: StatusOf(d, e) == Published || StatusOf(d, e) == Linked
    ensures es[|es| - 1] in es && !Torn(d, es[|es| - 1])
  {
    hide StatusOf, Torn;
    NamedStatus(d, es[|es| - 1]);
    forall e | e in es ensures StatusOf(d, e) == Published || StatusOf(d, e) == Linked {
      var i :| 0 <= i < |es| && es[i] == e;
    }
  }

  lemma RecordUnderWay(before: Root, d: Root, es: seq<Entry>, k: nat, t: Terms)
    requires es != [] && NoneThere(before, es)
    requires GroupMidway(before, d, es, k, t.block) && es[|es| - 1].Target() in d.names
    ensures k >= |es| - 1
  {
    NamedStatus(d, es[|es| - 1]);
    hide StatusOf, GroupFramed, Held, Demands, Torn;
    assert StatusOf(before, es[|es| - 1]) == Absent;
  }

  lemma OnlyLedgerRefuses(d: Root, es: seq<Entry>, k: nat, t: Terms)
    requires forall e | e in es :: StatusOf(d, e) == Published || StatusOf(d, e) == Linked
    requires k < |es| ==> !Torn(d, es[k])
    ensures Retryable(d, es, k, t.fits) <==> AllFit(d, es, t.fits)
  {
    hide AllFit, StatusOf, Torn;
    assert k < |es| ==> es[k] in es;
  }

  lemma TornIsUnsafe(d: Root, e: Entry)
    requires Torn(d, e)
    ensures StatusOf(d, e) == Unsafe
  {
  }

  lemma NamedStatus(d: Root, e: Entry)
    ensures if e.Target() in d.names then !Torn(d, e) && StatusOf(d, e) != Absent && StatusOf(d, e) != Staged
            else StatusOf(d, e) != Published && StatusOf(d, e) != Linked
  {
  }

  lemma UnfitNameCloses(d: Root, e: Entry, es: seq<Entry>, t: Terms)
    requires (StatusOf(d, e) == Published || StatusOf(d, e) == Linked) && !t.fits(e.parent, e.file, e.raw)
    ensures !Passes(d, es, t)
  {
    assert !IsLeftover(d, es, e.Target());
    assert !NameFits(Recovered(d, es), e.Target(), t.fits);
  }

  // ----- the deletion marker and the receipt: the attempt reads the marker first

  /** A marker that is there is not published again; a receipt that is there is all that is left. */
  function ClearingGroup(d: Root, marker: Entry, receipt: Entry): seq<Entry>
  {
    if marker.Target() in d.names || receipt.Target() in d.names then [receipt] else [marker, receipt]
  }

  predicate MayClear(d: Root, marker: Entry, receipt: Entry, t: Terms)
  {
    && (marker.Target() in d.names ==> IsRegular(d, marker))
    && (IsRegular(d, receipt) || Passes(d, ClearingGroup(d, marker, receipt), t))
  }

  /** A deletion marker and the receipt of the same tombstone, neither of which is there. */
  predicate Clearing(before: Root, marker: Entry, receipt: Entry, t: Terms)
  {
    && marker.parent == Deleting && receipt.parent == Completed
    && marker.Target() !in before.names && receipt.Target() !in before.names
    && t.fits(Deleting, marker.file, marker.raw) && t.fits(Completed, receipt.file, receipt.raw)
    && Passes(before, [marker, receipt], t)
  }

  /**
   A clearing that a crash cut off goes on exactly if its marker had not been created or has one name
   again, and the stage of its receipt is not torn.
   */
  lemma ClearingRetryIff(before: Root, d: Root, marker: Entry, receipt: Entry, k: nat, t: Terms)
    requires before.Valid() && Clearing(before, marker, receipt, t)
    requires GroupMidway(Recovered(before, [marker, receipt]), d, [marker, receipt], k, t.block)
    ensures MayClear(d, marker, receipt, t) <==>
      && (k == 0 ==> StatusOf(d, marker) == Absent || StatusOf(d, marker) == Published)
      && (k == 1 ==> !Torn(d, receipt))
  {
    var es := [marker, receipt];
    var r := Recovered(before, es);
    assert Distinct(es);
    assert es[0] == marker && es[1] == receipt && marker in es && receipt in es;
    AdmittedIsPublishable(before, es, t);
    GroupRetryConverges(before, d, es, k, t.fits, t.other, t.hard, t.block);
    if k == 0 {
      ReceiptStillOut(r, before, d, marker, receipt, t);
      CrashAtMarker(r, d, marker, receipt, t);
    } else if k == 1 {
      CrashAtReceipt(r, d, marker, receipt, t);
    } else {
      assert StatusOf(d, marker) == Published && StatusOf(d, receipt) == Published;
      ReadsIntent(d, marker);
      ReadsIntent(d, receipt);
    }
  }

  lemma ReceiptStillOut(r: Root, before: Root, d: Root, marker: Entry, receipt: Entry, t: Terms)
    requires r == Recovered(before, [marker, receipt]) && Clearing(before, marker, receipt, t)
    requires GroupMidway(r, d, [marker, receipt], 0, t.block)
    ensures receipt.Target() !in d.names
  {
    RecoveredStatus(before, [marker, receipt], receipt);
    assert StatusOf(d, [marker, receipt][1]) == StatusOf(r, receipt);
  }

  lemma CrashAtMarker(r: Root, d: Root, marker: Entry, receipt: Entry, t: Terms)
    requires marker.parent == Deleting && receipt.parent == Completed && receipt.Target() !in d.names
    requires t.fits(Deleting, marker.file, marker.raw) && t.fits(Completed, receipt.file, receipt.raw)
    requires GroupMidway(r, d, [marker, receipt], 0, t.block)
    requires Passes(d, [marker, receipt], t) <==> Retryable(d, [marker, receipt], 0, t.fits)
    ensures MayClear(d, marker, receipt, t) <==> StatusOf(d, marker) == Absent || StatusOf(d, marker) == Published
  {
    var es := [marker, receipt];
    assert es[0] == marker && es[1..] == [receipt];
    assert StatusOf(d, marker) != Unsafe || Torn(d, marker);
    hide StatusOf, Torn, MayPublishGroup, GroupMidway, AllFit;
    MarkerRetryable(d, marker, receipt, t);
    NamedStatus(d, marker);
    hide Retryable;
    if marker.Target() in d.names {
      ReadsIntent(d, marker);
      if StatusOf(d, marker) == Published { DropsFirst(d, es, t); }
      hide Passes, IsRegular;
    } else {
      if Torn(d, marker) { TornIsUnsafe(d, marker); }
    }
  }

  lemma MarkerRetryable(d: Root, marker: Entry, receipt: Entry, t: Terms)
    requires marker.parent == Deleting && receipt.parent == Completed
    requires t.fits(Deleting, marker.file, marker.raw) && t.fits(Completed, receipt.file, receipt.raw)
    ensures Retryable(d, [marker, receipt], 0, t.fits) <==> !Torn(d, marker) && StatusOf(d, marker) != Staged
    ensures Retryable(d, [marker, receipt], 1, t.fits) <==> !Torn(d, receipt)
  {
    hide StatusOf, Torn;
    assert [marker, receipt][0] == marker && [marker, receipt][1] == receipt;
  }

  lemma CrashAtReceipt(r: Root, d: Root, marker: Entry, receipt: Entry, t: Terms)
    requires marker.parent == Deleting && receipt.parent == Completed
    requires t.fits(Deleting, marker.file, marker.raw) && t.fits(Completed, receipt.file, receipt.raw)
    requires GroupMidway(r, d, [marker, receipt], 1, t.block)
    requires Passes(d, [marker, receipt], t) <==> Retryable(d, [marker, receipt], 1, t.fits)
    ensures MayClear(d, marker, receipt, t) <==> !Torn(d, receipt)
  {
    var es := [marker, receipt];
    assert es[0] == marker && es[1] == receipt && es[1..] == [receipt];
    assert StatusOf(d, marker) == Published;
    hide GroupMidway;
    ReadsIntent(d, marker);
    NamedStatus(d, marker);
    NamedStatus(d, receipt);
    MarkerRetryable(d, marker, receipt, t);
    hide StatusOf, Retryable, Clean, Admits, Blocked;
    if Torn(d, receipt) {
      TornIsUnsafe(d, receipt);
      assert receipt in [receipt] && receipt.Target() !in d.names;
    } else {
      DropsFirst(d, es, t);
    }
    hide Torn, IsRegular;
  }

  /** As long as a marker has its stage, no group that does not finish it passes: the whole root is closed. */
  lemma MarkerStageCloses(d: Root, marker: Entry, es: seq<Entry>, t: Terms)
    requires marker.parent == Deleting && marker.Temporary() in d.names
    requires marker !in es || StatusOf(d, marker) != Linked
    ensures !Passes(d, es, t)
  {
    var n := marker.Temporary();
    assert n in Recovered(d, es).names by {
      forall e | e in es && n == e.Temporary() ensures e == marker {
      }
    }
    assert !NameFits(Recovered(d, es), n, t.fits);
  }

  // ----- concrete crashes inside the first record of an empty root

  /** The record is completely staged and nothing else is there. */
  function StagedAlone(e: Entry): Root
  {
    Directory(map[e.Temporary() := 0], [Inode(e.raw, true)])
  }

  /** The record has both names and nothing else is there. */
  function LinkedAlone(e: Entry): Root
  {
    Directory(map[e.Temporary() := 0, e.Target() := 0], [Inode(e.raw, true)])
  }

  lemma StagedAloneIsMidway(e: Entry, block: Block)
    ensures Midway(EMPTY, StagedAlone(e), e, block) && StatusOf(StagedAlone(e), e) == Staged
  {
    var d := StagedAlone(e);
    assert d.names[e.Temporary()] == 0 && d.HasName(0);
    assert Space(d.inodes, block) == RoundUp(|e.raw|, block);
  }

  lemma LinkedAloneIsMidway(e: Entry, block: Block)
    ensures Midway(EMPTY, LinkedAlone(e), e, block) && StatusOf(LinkedAlone(e), e) == Linked
  {
    StagedAloneIsMidway(e, block);
    Links(EMPTY, StagedAlone(e), e, block);
    assert StagedAlone(e).Link(e.Temporary(), e.Target()) == LinkedAlone(e);
  }

  /** Both are reached by a publication of a group that begins with the record. */
  lemma AloneIsReached(es: seq<Entry>, block: Block)
    requires Distinct(es) && es != []
    ensures GroupMidway(EMPTY, StagedAlone(es[0]), es, 0, block) && StatusOf(StagedAlone(es[0]), es[0]) == Staged
    ensures GroupMidway(EMPTY, LinkedAlone(es[0]), es, 0, block) && StatusOf(LinkedAlone(es[0]), es[0]) == Linked
  {
    StagedAloneIsMidway(es[0], block);
    LinkedAloneIsMidway(es[0], block);
    assert EMPTY.Valid();
    assert forall i | 0 <= i < |es| :: StatusOf(EMPTY, es[i]) == Absent;
    Advances(EMPTY, EMPTY, StagedAlone(es[0]), es, 0, block);
    Advances(EMPTY, EMPTY, LinkedAlone(es[0]), es, 0, block);
  }

  /**
   The first clearing of an empty root may begin; from the state before the link of its marker no
   group passes any more, and from the state before the unlink no group but the marker's own, which
   the next attempt does not publish again.
   */
  lemma MarkerCrashCloses(marker: Entry, receipt: Entry, es: seq<Entry>, t: Terms)
    requires Clearing(EMPTY, marker, receipt, t)
    ensures MayClear(EMPTY, marker, receipt, t)
    ensures GroupMidway(EMPTY, StagedAlone(marker), [marker, receipt], 0, t.block)
    ensures !MayClear(StagedAlone(marker), marker, receipt, t) && !Passes(StagedAlone(marker), es, t)
    ensures GroupMidway(EMPTY, LinkedAlone(marker), [marker, receipt], 0, t.block)
    ensures !MayClear(LinkedAlone(marker), marker, receipt, t)
    ensures marker !in es ==> !Passes(LinkedAlone(marker), es, t)
  {
    var group := [marker, receipt];
    EmptyIsClean(group, t.fits);
    AloneIsReached(group, t.block);
    assert group[0] == marker;
    hide Passes, GroupMidway;
    ClearingRetryIff(EMPTY, StagedAlone(marker), marker, receipt, 0, t);
    ClearingRetryIff(EMPTY, LinkedAlone(marker), marker, receipt, 0, t);
    MarkerStageCloses(StagedAlone(marker), marker, es, t);
    if marker !in es { MarkerStageCloses(LinkedAlone(marker), marker, es, t); }
  }

  /**
   A crash between link and unlink of the first barrier of an empty agent root: neither that
   consumption nor the first attempt of any other goes on.
   */
  lemma BarrierCrashCloses(es: seq<Entry>, others: seq<Entry>, t: Terms, acksOpen: bool)
    requires Distinct(es) && |es| >= 2 && others != [] && others[|others| - 1].Target() != es[0].Target()
    ensures GroupMidway(EMPTY, LinkedAlone(es[0]), es, 0, t.block)
    ensures !MayConsume(LinkedAlone(es[0]), es, t, acksOpen)
    ensures !MayConsume(LinkedAlone(es[0]), others, t, acksOpen)
  {
    AloneIsReached(es, t.block);
    LinkedClosesChain(LinkedAlone(es[0]), es[0], t);
    assert es[|es| - 1].Target() != es[0].Target();
    hide Passes, OpensChain, GroupMidway;
  }
}
