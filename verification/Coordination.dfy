/**
 The controller's retention coordinator: one mutation per cycle, chosen by two scans of its ledgers
 while the agent keeps acknowledging.  Every read and every write of a cycle is a step here, and
 the coordinator may crash or be refused between any two.
 */
module Coordination {
  import opened Options
  import opened CentralProtocol
  import opened Tombstones
  import opened Planning

  /** A commitment and the record that it was planned for. */
  datatype Commitment = Commitment(record: Record, prepared: Tombstone, at: nat)

  /**
   Where the coordinator stands in its cycle.  `late` notes that the agent acknowledged something
   after the scan for acknowledgements of the same cycle.
   */
  datatype Control =
    | Resting
    | Consuming(acked: Tombstone)
    | Cleaning(cleaned: Tombstone)
    | Scanned(late: bool)
    | Cleared(late: bool)
    | Committing(late: bool, plan: Commitment)

  datatype World = World(
    committed: map<Tombstone, nat>, acks: set<Tombstone>, receipts: set<Tombstone>, history: set<Commitment>,
    control: Control)

  datatype Action =
    | AgentAck(tombstone: Tombstone)
    | ScanAcks(order: seq<Tombstone>)
    | ScanCommitted
    | Choose(records: seq<Record>, now: nat, index: nat)
    | CommitRecord
    | PublishReceipt
    | UnlinkRecord
    | Stop

  /** Committed, and the controller has no receipt yet. */
  function Open(w: World): set<Tombstone>
  {
    set t | t in w.committed && t !in w.receipts
  }

  /** Committed, and the agent has not acknowledged yet. */
  function Unacked(w: World): set<Tombstone>
  {
    set t | t in w.committed && t !in w.acks
  }

  // ----- the scans

  predicate Lists(order: seq<Tombstone>, committed: map<Tombstone, nat>)
  {
    (forall t | t in order :: t in committed) && forall t | t in committed :: t in order
  }

  predicate Actionable(t: Tombstone, acks: set<Tombstone>, receipts: set<Tombstone>)
  {
    t in acks && t !in receipts
  }

  function FirstActionable(order: seq<Tombstone>, acks: set<Tombstone>, receipts: set<Tombstone>): Option<Tombstone>
  {
    if order == [] then None
    else if Actionable(order[0], acks, receipts) then Some(order[0])
    else FirstActionable(order[1..], acks, receipts)
  }

  lemma {:induction false} FirstActionableIs(order: seq<Tombstone>, acks: set<Tombstone>, receipts: set<Tombstone>)
    ensures var f := FirstActionable(order, acks, receipts);
      if f.Some? then f.value in order && Actionable(f.value, acks, receipts)
      else forall t | t in order :: !Actionable(t, acks, receipts)
  {
    if order != [] { FirstActionableIs(order[1..], acks, receipts); }
  }

  // ----- the choice

  function Done(receipts: set<Tombstone>): Tombstone -> bool
  {
    t => t in receipts
  }

  /** The first plan that is not completed is the first of record `i`. */
  predicate IsChoice(records: seq<Record>, now: nat, i: nat, receipts: set<Tombstone>)
  {
    && i < |records|
    && AllPlans(records[..i], now, Done(receipts)) == []
    && Pending(PlansOf(records[i], now), Done(receipts)) != []
  }

  function Choice(records: seq<Record>, now: nat, i: nat, receipts: set<Tombstone>): Commitment
    requires IsChoice(records, now, i, receipts)
  {
    Commitment(records[i], Pending(PlansOf(records[i], now), Done(receipts))[0], now)
  }

  // ----- the steps

  predicate Can(w: World, a: Action)
  {
    match a
    case AgentAck(t) => t in w.committed
    case ScanAcks(order) => w.control.Resting? && Lists(order, w.committed)
    case ScanCommitted => w.control.Scanned?
    case Choose(records, now, i) => w.control.Cleared? && IsChoice(records, now, i, w.receipts)
    case CommitRecord => w.control.Committing?
    case PublishReceipt => w.control.Consuming?
    case UnlinkRecord => w.control.Cleaning?
    case Stop => true
  }

  function AfterAck(c: Control, t: Tombstone, acks: set<Tombstone>): Control
  {
    if c.Scanned? && t !in acks then Scanned(true) else c
  }

  function AfterScan(order: seq<Tombstone>, acks: set<Tombstone>, receipts: set<Tombstone>): Control
  {
    var f := FirstActionable(order, acks, receipts);
    if f.Some? then Consuming(f.value) else Scanned(false)
  }

  /** An immutable record: a receipt makes the commit a no-op, another time makes it a refusal. */
  function Commit(w: World, c: Commitment): World
  {
    if c.prepared in w.receipts || (c.prepared in w.committed && w.committed[c.prepared] != c.at) then Rest(w)
    else World(w.committed[c.prepared := c.at], w.acks, w.receipts, w.history + {c}, Resting)
  }

  function Rest(w: World): World
  {
    w.(control := Resting)
  }

  function Step(w: World, a: Action): World
    requires Can(w, a)
  {
    match a
    case AgentAck(t) => w.(acks := w.acks + {t}, control := AfterAck(w.control, t, w.acks))
    case ScanAcks(order) => w.(control := AfterScan(order, w.acks, w.receipts))
    case ScanCommitted => if Unacked(w) == {} then w.(control := Cleared(w.control.late)) else Rest(w)
    case Choose(records, now, i) =>
      w.(control := Committing(w.control.late, Choice(records, now, i, w.receipts)))
    case CommitRecord => Commit(w, w.control.plan)
    case PublishReceipt => w.(receipts := w.receipts + {w.control.acked}, control := Cleaning(w.control.acked))
    case UnlinkRecord => w.(committed := w.committed - {w.control.cleaned}, control := Resting)
    case Stop => Rest(w)
  }

  function Next(w: World, a: Action): World
  {
    if Can(w, a) then Step(w, a) else w
  }

  function After(w: World, run: seq<Action>): World
    decreases |run|
  {
    if run == [] then w else After(Next(w, run[0]), run[1..])
  }

  predicate Initial(w: World)
  {
    w.committed == map[] && w.acks == {} && w.receipts == {} && w.history == {} && w.control == Resting
  }

  // ----- the invariant

  /** The bundle of an event is committed only when a scratch tombstone of the event has its receipt. */
  ghost predicate ScratchWentFirst(c: Commitment, receipts: set<Tombstone>)
  {
    c.prepared.target.Evidence? ==>
      exists s :: s in receipts && s.task == c.prepared.task && !s.target.Evidence?
  }

  ghost predicate Founded(c: Commitment, receipts: set<Tombstone>)
  {
    c.prepared in PlansOf(c.record, c.at) && ScratchWentFirst(c, receipts)
  }

  ghost predicate ControlOk(w: World)
  {
    match w.control
    case Resting => true
    case Consuming(t) => t in w.acks
    case Cleaning(t) => t in w.acks && t in w.receipts
    case Scanned(late) => |Open(w)| <= 1 && (if late then Open(w) != {} else Open(w) <= Unacked(w))
    case Cleared(late) => |Open(w)| <= 1 && Unacked(w) == {} && (late <==> Open(w) != {})
    case Committing(late, c) =>
      |Open(w)| <= 1 && Unacked(w) == {} && (late <==> Open(w) != {}) && Founded(c, w.receipts)
  }

  ghost predicate Inv(w: World)
  {
    && w.receipts <= w.acks
    && |Unacked(w)| <= 1 && |Open(w)| <= 2
    && (forall c | c in w.history :: Founded(c, w.receipts))
    && ControlOk(w)
  }

  lemma {:induction false} FewerThan(a: set<Tombstone>, b: set<Tombstone>)
    requires a <= b
    ensures |a| <= |b|
  {
    if a != {} {
      var t :| t in a;
      FewerThan(a - {t}, b - {t});
    }
  }

  lemma AckKeepsInv(w: World, t: Tombstone)
    requires Inv(w) && t in w.committed
    ensures Inv(Step(w, AgentAck(t)))
  {
    var v := Step(w, AgentAck(t));
    hide Founded;
    assert Open(v) == Open(w);
    FewerThan(Unacked(v), Unacked(w));
    if w.control.Scanned? && t !in w.acks { assert t in Open(v); }
  }

  lemma ScanKeepsInv(w: World, order: seq<Tombstone>)
    requires Inv(w) && Can(w, ScanAcks(order))
    ensures Inv(Step(w, ScanAcks(order)))
  {
    var v := Step(w, ScanAcks(order));
    hide Founded;
    FirstActionableIs(order, w.acks, w.receipts);
    hide FirstActionable;
    assert Open(v) == Open(w) && Unacked(v) == Unacked(w);
    if v.control.Scanned? { FewerThan(Open(w), Unacked(w)); }
  }

  lemma CommitKeepsInv(w: World)
    requires Inv(w) && w.control.Committing?
    ensures Inv(Step(w, CommitRecord))
  {
    var v, c := Step(w, CommitRecord), w.control.plan;
    hide Founded;
    if v == Rest(w) {
      assert Open(v) == Open(w) && Unacked(v) == Unacked(w);
    } else {
      FewerThan(Open(v), Open(w) + {c.prepared});
      FewerThan(Unacked(v), {c.prepared});
    }
  }

  lemma ReceiptKeepsInv(w: World)
    requires Inv(w) && w.control.Consuming?
    ensures Inv(Step(w, PublishReceipt))
  {
    var v := Step(w, PublishReceipt);
    FewerThan(Open(v), Open(w));
    assert Unacked(v) == Unacked(w);
    forall c | c in v.history ensures Founded(c, v.receipts) {
      assert Founded(c, w.receipts);
    }
  }

  lemma UnlinkKeepsInv(w: World)
    requires Inv(w) && w.control.Cleaning?
    ensures Inv(Step(w, UnlinkRecord))
  {
    var v := Step(w, UnlinkRecord);
    hide Founded;
    assert Open(v) == Open(w) && Unacked(v) == Unacked(w);
  }

  // ----- what is chosen

  lemma ChoiceIsFounded(records: seq<Record>, now: nat, i: nat, receipts: set<Tombstone>)
    requires IsChoice(records, now, i, receipts)
    ensures Founded(Choice(records, now, i, receipts), receipts)
  {
    var done := Done(receipts);
    var r, c := records[i], Choice(records, now, i, receipts);
    PendingIs(PlansOf(r, now), done);
    if c.prepared.target.Evidence? {
      PlansAreWellFormed(r, now);
      hide Pending, PlansOf, AllPlans;
      assert done(PlansOf(r, now)[0]);
    }
  }

  /** The first pending plan is a plan, and what comes before it is completed. */
  lemma {:induction false} PendingIs(plans: seq<Tombstone>, done: Tombstone -> bool)
    requires Pending(plans, done) != []
    ensures Pending(plans, done)[0] in plans && !done(Pending(plans, done)[0])
    ensures Pending(plans, done)[0] != plans[0] ==> done(plans[0])
  {
    if done(plans[0]) { PendingIs(plans[1..], done); }
  }

  lemma NextKeepsInv(w: World, a: Action)
    requires Inv(w)
    ensures Inv(Next(w, a))
  {
    if Can(w, a) {
      match a
      case AgentAck(t) => AckKeepsInv(w, t);
      case ScanAcks(order) => ScanKeepsInv(w, order);
      case CommitRecord => CommitKeepsInv(w);
      case PublishReceipt => ReceiptKeepsInv(w);
      case UnlinkRecord => UnlinkKeepsInv(w);
      case Choose(records, now, i) =>
        ChoiceIsFounded(records, now, i, w.receipts);
        SameLedgers(w, Step(w, a));
      case _ => SameLedgers(w, Step(w, a));
    }
  }

  lemma SameLedgers(w: World, v: World)
    requires v == w.(control := v.control)
    ensures Open(v) == Open(w) && Unacked(v) == Unacked(w)
  {
  }

  lemma {:induction false} AfterKeepsInv(w: World, run: seq<Action>)
    requires Inv(w)
    ensures Inv(After(w, run))
    decreases |run|
  {
    if run != [] {
      NextKeepsInv(w, run[0]);
      AfterKeepsInv(Next(w, run[0]), run[1..]);
    }
  }

  /** In every reachable state at most one commitment waits for the agent, and at most two for a receipt. */
  lemma {:induction false} AtMostTwoOpen(w: World, run: seq<Action>)
    requires Initial(w)
    ensures |Unacked(After(w, run))| <= 1
    ensures |Open(After(w, run))| <= 2
  {
    assert Open(w) == {} && Unacked(w) == {};
    AfterKeepsInv(w, run);
  }

  /** A commit leaves a second one open exactly if an acknowledgement came in after the scan for them. */
  lemma SecondOpensIffLate(w: World)
    requires Inv(w) && w.control.Committing? && Commit(w, w.control.plan) != Rest(w)
    requires w.control.plan.prepared !in w.committed
    ensures |Open(Next(w, CommitRecord))| == 2 <==> w.control.late
  {
    hide Founded;
    var v, t := Next(w, CommitRecord), w.control.plan.prepared;
    assert Open(v) == Open(w) + {t};
    if w.control.late {
      assert |Open(w)| >= 1;
    } else {
      assert Open(w) == {};
    }
  }

  /** No acknowledgement falls between the two scans of a cycle. */
  predicate Timely(w: World, run: seq<Action>)
    decreases |run|
  {
    run != [] ==> !(run[0].AgentAck? && w.control.Scanned?) && Timely(Next(w, run[0]), run[1..])
  }

  ghost predicate OneOpen(w: World)
  {
    Inv(w) && |Open(w)| <= 1 && (w.control.Scanned? || w.control.Cleared? || w.control.Committing? ==> !w.control.late)
  }

  lemma NextKeepsOneOpen(w: World, a: Action)
    requires OneOpen(w) && !(a.AgentAck? && w.control.Scanned?)
    ensures OneOpen(Next(w, a))
  {
    NextKeepsInv(w, a);
    hide Founded, FirstActionable, Lists, IsChoice, Choice;
    var v := Next(w, a);
    if Can(w, a) && a.CommitRecord? {
      assert Open(w) == {};
      FewerThan(Open(v), {w.control.plan.prepared});
    } else {
      FewerThan(Open(v), Open(w));
    }
  }

  /** Then at most one committed tombstone lacks its receipt at any time. */
  lemma {:induction false} AtMostOneOpen(w: World, run: seq<Action>)
    requires OneOpen(w) && Timely(w, run)
    ensures OneOpen(After(w, run))
    decreases |run|
  {
    if run != [] {
      NextKeepsOneOpen(w, run[0]);
      AtMostOneOpen(Next(w, run[0]), run[1..]);
    }
  }

  // ----- order and age of what is committed

  /** An event's bundle is committed only after its scratch has been deleted and receipted. */
  lemma {:induction false} BundleAfterScratch(w: World, run: seq<Action>, c: Commitment)
    requires Initial(w) && c in After(w, run).history && c.prepared.target.Evidence?
    ensures exists s :: s in After(w, run).receipts && s.task == c.prepared.task && !s.target.Evidence?
  {
    assert Open(w) == {} && Unacked(w) == {};
    AfterKeepsInv(w, run);
    assert Founded(c, After(w, run).receipts);
  }

  /** Nothing is committed before its age, counted from the execution or from its delivery. */
  lemma {:induction false} CommittedInAge(w: World, run: seq<Action>, c: Commitment, scratchTtl: nat, evidenceTtl: nat)
    requires Initial(w) && c in After(w, run).history && Aged(c.record, scratchTtl, evidenceTtl)
    ensures WellFormed(c.prepared) && c.prepared.eligibleAt <= c.at
    ensures c.prepared.target.Evidence? ==>
      c.record.delivered.Some? && c.record.delivered.value + evidenceTtl <= c.at
    ensures !c.prepared.target.Evidence? ==> c.record.created + scratchTtl <= c.at
  {
    assert Open(w) == {} && Unacked(w) == {};
    AfterKeepsInv(w, run);
    assert Founded(c, After(w, run).receipts);
    PlansAreWellFormed(c.record, c.at);
    PlansRespectAges(c.record, c.at, scratchTtl, evidenceTtl, c.prepared);
  }

  // ----- a crash between the receipt and the last unlink

  ghost predicate Stranded(w: World, t: Tombstone)
  {
    t in w.committed && t in w.receipts && w.control != Consuming(t) && w.control != Cleaning(t)
  }

  lemma NextKeepsStranded(w: World, a: Action, t: Tombstone)
    requires Stranded(w, t)
    ensures Stranded(Next(w, a), t)
  {
    if a.ScanAcks? { FirstActionableIs(a.order, w.acks, w.receipts); }
  }

  /** Once its receipt is there, a committed record that was not unlinked at once is never unlinked. */
  lemma {:induction false} StrandedForEver(w: World, run: seq<Action>, t: Tombstone)
    requires Stranded(w, t)
    ensures t in After(w, run).committed
    decreases |run|
  {
    if run != [] {
      NextKeepsStranded(w, run[0], t);
      StrandedForEver(Next(w, run[0]), run[1..], t);
    }
  }

  /** One that the coordinator stands at can still be. */
  lemma {:induction false} AttendedLeaves(w: World, t: Tombstone) returns (run: seq<Action>)
    requires w.control == Consuming(t) || w.control == Cleaning(t)
    ensures t !in After(w, run).committed
  {
    if w.control == Consuming(t) {
      run := [PublishReceipt, UnlinkRecord];
      assert run[1..] == [UnlinkRecord] && [UnlinkRecord][1..] == [];
      assert After(w, run) == After(Next(w, PublishReceipt), [UnlinkRecord]);
      assert After(w, run) == Next(Next(w, PublishReceipt), UnlinkRecord);
    } else {
      run := [UnlinkRecord];
      assert run[1..] == [];
      assert After(w, run) == Next(w, UnlinkRecord);
    }
  }

  /** So a committed record with its receipt leaves in some run exactly if the coordinator stands at it. */
  lemma {:induction false} LeavesIffAttended(w: World, t: Tombstone)
    requires t in w.committed && t in w.receipts
    ensures (exists run :: t !in After(w, run).committed) <==> w.control == Consuming(t) || w.control == Cleaning(t)
  {
    if w.control == Consuming(t) || w.control == Cleaning(t) {
      var run := AttendedLeaves(w, t);
    } else {
      forall run ensures t in After(w, run).committed {
        StrandedForEver(w, run, t);
      }
    }
  }

  /** A crash right after the receipt strands the record. */
  lemma {:induction false} CrashStrands(w: World)
    requires Inv(w) && w.control.Consuming? && w.control.acked in w.committed
    ensures Stranded(After(w, [PublishReceipt, Stop]), w.control.acked)
  {
    assert After(w, [PublishReceipt, Stop]) == Next(Next(w, PublishReceipt), Stop) by {
      assert [PublishReceipt, Stop][1..] == [Stop];
    }
  }

  // ----- two commitments open at once

  lemma {:induction false} AfterAppends(w: World, run: seq<Action>, more: seq<Action>)
    ensures After(w, run + more) == After(After(w, run), more)
    decreases |run|
  {
    if run == [] {
      assert run + more == more;
    } else {
      assert (run + more)[1..] == run[1..] + more;
      AfterAppends(Next(w, run[0]), run[1..], more);
    }
  }

  lemma {:induction false} FourSteps(w: World, a: Action, b: Action, c: Action, d: Action)
    ensures After(w, [a, b, c, d]) == Next(Next(Next(Next(w, a), b), c), d)
  {
    hide Next;
    var w1 := Next(w, a);
    var w2 := Next(w1, b);
    var w3 := Next(w2, c);
    assert [a, b, c, d][1..] == [b, c, d] && [b, c, d][1..] == [c, d] && [c, d][1..] == [d] && [d][1..] == [];
    assert After(w, [a, b, c, d]) == After(w1, [b, c, d]);
    assert After(w1, [b, c, d]) == After(w2, [c, d]);
    assert After(w2, [c, d]) == After(w3, [d]);
  }

  function CommitCycle(order: seq<Tombstone>, records: seq<Record>, now: nat, i: nat): seq<Action>
  {
    [ScanAcks(order), ScanCommitted, Choose(records, now, i), CommitRecord]
  }

  /** The agent acknowledges, and the next cycle takes it up. */
  function AckCycle(t: Tombstone): seq<Action>
  {
    [AgentAck(t), ScanAcks([t]), PublishReceipt, UnlinkRecord]
  }

  /** An undisturbed cycle that commits. */
  lemma {:induction false} CommitCycleCommits(w: World, records: seq<Record>, now: nat, i: nat)
    requires w.control.Resting? && w.committed == map[] && IsChoice(records, now, i, w.receipts)
    requires Choice(records, now, i, w.receipts).prepared !in w.receipts
    ensures var c := Choice(records, now, i, w.receipts);
      After(w, CommitCycle([], records, now, i)) ==
        World(map[c.prepared := now], w.acks, w.receipts, w.history + {c}, Resting)
  {
    hide IsChoice;
    assert Unacked(w.(control := Scanned(false))) == {};
    FourSteps(w, ScanAcks([]), ScanCommitted, Choose(records, now, i), CommitRecord);
    hide After;
  }

  lemma {:induction false} AckCycleReceipts(w: World, t: Tombstone, at: nat)
    requires w.control.Resting? && w.committed == map[t := at] && t !in w.acks && t !in w.receipts
    ensures After(w, AckCycle(t)) == World(map[], w.acks + {t}, w.receipts + {t}, w.history, Resting)
  {
    FourSteps(w, AgentAck(t), ScanAcks([t]), PublishReceipt, UnlinkRecord);
    hide After;
    assert map[t := at] - {t} == map[];
  }

  /** The same commit cycle with an acknowledgement between its scans. */
  function LateCycle(t: Tombstone, records: seq<Record>, now: nat, i: nat): seq<Action>
  {
    [ScanAcks([t]), AgentAck(t), ScanCommitted, Choose(records, now, i)]
  }

  lemma {:induction false} LateCycleChooses(w: World, t: Tombstone, at: nat, records: seq<Record>, now: nat, i: nat)
    requires w.control.Resting? && w.committed == map[t := at] && t !in w.acks && t !in w.receipts
    requires IsChoice(records, now, i, w.receipts)
    ensures After(w, LateCycle(t, records, now, i)) ==
      World(w.committed, w.acks + {t}, w.receipts, w.history, Committing(true, Choice(records, now, i, w.receipts)))
  {
    hide IsChoice, Choice;
    assert [t][1..] == [] && FirstActionable([t], w.acks, w.receipts) == None;
    assert Unacked(World(w.committed, w.acks + {t}, w.receipts, w.history, Scanned(true))) == {};
    FourSteps(w, ScanAcks([t]), AgentAck(t), ScanCommitted, Choose(records, now, i));
    hide After;
  }

  lemma {:induction false} LateCommitOpens(w: World, t: Tombstone, at: nat)
    requires w.control.Committing? && w.committed == map[t := at] && t !in w.receipts
    requires w.control.plan.prepared !in w.receipts + {t}
    ensures Open(After(w, [CommitRecord])) == {t, w.control.plan.prepared}
  {
    assert [CommitRecord][1..] == [];
    assert After(w, [CommitRecord]) == Next(w, CommitRecord);
  }

  /** An accepted central execution of task `n`. */
  function Sample(n: nat, created: nat, delivered: Option<int>): Record
  {
    Record(
      Task(EventId(Plain(n), Plain(0)), Plain(n), Plain(0)), Central, Cleaned, true, created, delivered, created + 10,
      if delivered.Some? then Some(delivered.value + 20) else None,
      [OfBytes(0), OfBytes(1), OfBytes(2)], Some(OfBytes(3)), false, [], None, [OfBytes(4), OfBytes(5), OfBytes(6)])
  }

  lemma SampleOk(n: nat, created: nat, delivered: Option<int>)
    requires delivered.Some? ==> created <= delivered.value
    ensures Planning.RecordOk(Sample(n, created, delivered))
  {
  }

  lemma PendingOne(t: Tombstone, receipts: set<Tombstone>)
    ensures Pending([t], Done(receipts)) == if t in receipts then [] else [t]
  {
    assert [t][1..] == [];
  }

  lemma PendingTwo(t: Tombstone, u: Tombstone, receipts: set<Tombstone>)
    requires t in receipts && u !in receipts
    ensures Pending([t, u], Done(receipts)) == [u]
  {
    assert [t, u][1..] == [u];
    PendingOne(u, receipts);
  }

  lemma {:induction false} AllPlansOfOne(r: Record, now: nat, receipts: set<Tombstone>)
    ensures AllPlans([r][..0], now, Done(receipts)) == []
    ensures AllPlans([r], now, Done(receipts)) == Pending(PlansOf(r, now), Done(receipts))
  {
    assert [r][..0] == [];
  }

  const EARLY := Sample(0, 0, Some(5))

  const LATER := Sample(1, 1, None)

  lemma SamplePlans()
    ensures Planning.RecordOk(EARLY) && Planning.RecordOk(LATER) && EARLY.evidenceAt.Some? && EARLY.bundle.Some?
    ensures var first, second, bundle := ScratchOf(EARLY), ScratchOf(LATER), EvidenceOf(EARLY);
      && PlansOf(EARLY, 10) == [first] && PlansOf(EARLY, 11) == [first] && PlansOf(LATER, 11) == [second]
      && PlansOf(EARLY, 25) == [first, bundle]
      && first != second && bundle != first && bundle != second
  {
    SampleOk(0, 0, Some(5));
    SampleOk(1, 1, None);
    hide Planning.RecordOk;
  }

  lemma SampleChoices(first: Tombstone, second: Tombstone, bundle: Tombstone)
    requires PlansOf(EARLY, 10) == [first] && PlansOf(EARLY, 11) == [first] && PlansOf(LATER, 11) == [second]
    requires PlansOf(EARLY, 25) == [first, bundle] && first != second && bundle != first
    ensures IsChoice([EARLY], 10, 0, {}) && Choice([EARLY], 10, 0, {}).prepared == first
    ensures IsChoice([EARLY, LATER], 11, 1, {first}) && Choice([EARLY, LATER], 11, 1, {first}).prepared == second
    ensures IsChoice([EARLY, LATER], 25, 0, {first}) && Choice([EARLY, LATER], 25, 0, {first}).prepared == bundle
  {
    hide PlansOf, Pending, AllPlans;
    PendingOne(first, {});
    PendingOne(first, {first});
    PendingOne(second, {first});
    PendingTwo(first, bundle, {first});
    assert [EARLY, LATER][..1] == [EARLY] && [EARLY, LATER][..0] == [EARLY][..0];
    AllPlansOfOne(EARLY, 10, {});
    AllPlansOfOne(EARLY, 11, {first});
    AllPlansOfOne(EARLY, 25, {first});
  }

  /** The first task's bundle comes of age while the second task's scratch is out with the agent. */
  lemma TwoMayBeOpen() returns (w: World, run: seq<Action>)
    ensures Initial(w) && |Open(After(w, run))| == 2
  {
    SamplePlans();
    var first, second, bundle := ScratchOf(EARLY), ScratchOf(LATER), EvidenceOf(EARLY);
    SampleChoices(first, second, bundle);
    hide PlansOf, ScratchOf, EvidenceOf, Sample, Next, After, IsChoice, Choice, Planning.RecordOk;
    hide CommitCycle, AckCycle, LateCycle, Open;
    w := World(map[], {}, {}, {}, Resting);
    var one, two, three := CommitCycle([], [EARLY], 10, 0), AckCycle(first), CommitCycle([], [EARLY, LATER], 11, 1);
    var four := LateCycle(second, [EARLY, LATER], 25, 0);
    run := one + (two + (three + (four + [CommitRecord])));
    CommitCycleCommits(w, [EARLY], 10, 0);
    var w1 := After(w, one);
    AckCycleReceipts(w1, first, 10);
    var w2 := After(w1, two);
    assert w2.receipts == {first} && w2.acks == {first};
    CommitCycleCommits(w2, [EARLY, LATER], 11, 1);
    var w3 := After(w2, three);
    LateCycleChooses(w3, second, 11, [EARLY, LATER], 25, 0);
    LateCommitOpens(After(w3, four), second, 11);
    AfterAppends(w, one, two + (three + (four + [CommitRecord])));
    AfterAppends(w1, two, three + (four + [CommitRecord]));
    AfterAppends(w2, three, four + [CommitRecord]);
    AfterAppends(w3, four, [CommitRecord]);
  }

  // ----- the cycle

  datatype Outcome = AckConsumed | AwaitingAck | Refused | Idle | Committed(plan: Tombstone) | Conflict

  lemma {:induction false} FirstPlanIsChoice(records: seq<Record>, now: nat, receipts: set<Tombstone>) returns (i: nat)
    requires AllPlans(records, now, Done(receipts)) != []
    ensures IsChoice(records, now, i, receipts)
    ensures Choice(records, now, i, receipts).prepared == AllPlans(records, now, Done(receipts))[0]
  {
    var done := Done(receipts);
    i := |records| - 1;
    if AllPlans(records[..i], now, done) != [] {
      i := FirstPlanIsChoice(records[..i], now, receipts);
      assert records[..|records| - 1][..i] == records[..i];
    }
  }

  lemma {:induction false} OneMore(w: World, run: seq<Action>, a: Action)
    ensures After(w, run + [a]) == Next(After(w, run), a)
  {
    AfterAppends(w, run, [a]);
    assert [a][1..] == [];
    var v := After(w, run);
    assert After(v, [a]) == After(Next(v, a), []);
  }

  class RetentionCoordinator {
    var committed: map<Tombstone, nat>
    var acks: set<Tombstone>
    var receipts: set<Tombstone>
    ghost var history: set<Commitment>

    constructor ()
      ensures Initial(View(Resting))
    {
      committed, acks, receipts, history := map[], {}, {}, {};
    }

    ghost function View(control: Control): World
      reads this
    {
      World(committed, acks, receipts, history, control)
    }

    method ActionableAck(order: seq<Tombstone>) returns (found: Option<Tombstone>)
      ensures found == FirstActionable(order, acks, receipts)
    {
      for i := 0 to |order|
        invariant FirstActionable(order, acks, receipts) == FirstActionable(order[i..], acks, receipts)
      {
        if Actionable(order[i], acks, receipts) { return Some(order[i]); }
        assert order[i..][1..] == order[i + 1..];
      }
      return None;
    }

    method ActionableCommitted(order: seq<Tombstone>) returns (found: bool)
      requires Lists(order, committed)
      ensures forall c :: found <==> Unacked(View(c)) != {}
    {
      found := false;
      for i := 0 to |order|
        invariant found <==> exists k | 0 <= k < i :: order[k] !in acks
      {
        if order[i] !in acks { found := true; }
      }
      forall c ensures found <==> Unacked(View(c)) != {} {
        if found {
          var k :| 0 <= k < |order| && order[k] !in acks;
          assert order[k] in Unacked(View(c));
        } else {
          forall t | t in committed ensures t in acks {
            var k :| 0 <= k < |order| && order[k] == t;
          }
        }
      }
    }

    /** The agent acknowledges some of what is committed. */
    method AgentActs(
        tombstones: seq<Tombstone>, ghost control: Control) returns (ghost run: seq<Action>, ghost after: Control)
      modifies this`acks
      ensures forall t | t in acks :: t in old(acks) || t in tombstones
      ensures View(after) == After(old(View(control)), run)
      ensures control.Scanned? ==> after.Scanned?
    {
      run, after := [], control;
      for i := 0 to |tombstones|
        invariant forall t | t in acks :: t in old(acks) || t in tombstones
        invariant View(after) == After(old(View(control)), run)
        invariant control.Scanned? ==> after.Scanned?
      {
        var t := tombstones[i];
        if t in committed {
          OneMore(old(View(control)), run, AgentAck(t));
          run := run + [AgentAck(t)];
          after := AfterAck(after, t, acks);
          acks := acks + {t};
        }
      }
    }

    /** Plan, and commit the first plan that is not completed. */
    method CommitFirst(
        records: seq<Record>, now: nat, ghost late: bool) returns (outcome: Outcome, ghost run: seq<Action>)
      modifies this
      ensures View(Resting) == After(old(View(Cleared(late))), run)
      ensures !outcome.AckConsumed? && !outcome.AwaitingAck?
      ensures outcome.Committed? ==> committed == old(committed)[outcome.plan := now]
      ensures outcome.Committed? ==>
        && AllPlans(records, now, Done(old(receipts))) != []
        && outcome.plan == AllPlans(records, now, Done(old(receipts)))[0]
      ensures !outcome.Committed? ==> committed == old(committed)
    {
      hide PlansOf, AllPlans, Pending, IsChoice, After, Done;
      ghost var w := View(Cleared(late));
      var done := Done(receipts);
      var plans := PlanRetention(records, now, 1, done);
      if plans.None? || plans.value == [] {
        SingleStep(w, Stop);
        return if plans.None? then Refused else Idle, [Stop];
      }
      var t := plans.value[0];
      ghost var i := FirstPlanIsChoice(records, now, receipts);
      run := [Choose(records, now, i), CommitRecord];
      TwoSteps(w, Choose(records, now, i), CommitRecord);
      if t in receipts || (t in committed && committed[t] != now) { return Conflict, run; }
      committed, history := committed[t := now], history + {Choice(records, now, i, receipts)};
      return Outcome.Committed(t), run;
    }

    /**
     One cycle after reconciliation: take up an acknowledgement, or wait for one, or commit the first
     plan that is not completed.  `between` is what the agent acknowledges between the two scans.
     */
    method Cycle(order: seq<Tombstone>, between: seq<Tombstone>, records: seq<Record>, now: nat)
      returns (outcome: Outcome, ghost run: seq<Action>)
      requires Lists(order, committed)
      modifies this
      ensures View(Resting) == After(old(View(Resting)), run)
      ensures outcome.AckConsumed? <==> old(FirstActionable(order, acks, receipts)).Some?
      ensures outcome.Committed? ==> forall t | t in old(committed) && t !in old(acks) :: t in between
      ensures outcome.Committed? ==> committed == old(committed)[outcome.plan := now]
      ensures outcome.Committed? ==>
        && AllPlans(records, now, Done(old(receipts))) != []
        && outcome.plan == AllPlans(records, now, Done(old(receipts)))[0]
      ensures !outcome.Committed? && !outcome.AckConsumed? ==> committed == old(committed)
    {
      hide FirstActionable, Lists, PlansOf, AllPlans, Pending, After;
      ghost var w := View(Resting);
      var found := ActionableAck(order);
      if found.Some? {
        TakeUp(w, order, found.value);
        receipts := receipts + {found.value};
        committed := committed - {found.value};
        return AckConsumed, [ScanAcks(order), PublishReceipt, UnlinkRecord];
      }
      run := [ScanAcks(order)];
      SingleStep(w, ScanAcks(order));
      ghost var acted, after := AgentActs(between, Scanned(false));
      AfterAppends(w, run, acted);
      run := run + acted;
      OneMore(w, run, ScanCommitted);
      run := run + [ScanCommitted];
      var waiting := ActionableCommitted(order);
      if waiting { return AwaitingAck, run; }
      forall t | t in committed && t !in old(acks) ensures t in between {
        assert t !in Unacked(View(Resting));
      }
      ghost var last;
      outcome, last := CommitFirst(records, now, after.late);
      AfterAppends(w, run, last);
      run := run + last;
    }
  }

  lemma {:induction false} SingleStep(w: World, a: Action)
    ensures After(w, [a]) == Next(w, a)
  {
    OneMore(w, [], a);
    assert [] + [a] == [a];
  }

  lemma {:induction false} TwoSteps(w: World, a: Action, b: Action)
    ensures After(w, [a, b]) == Next(Next(w, a), b)
  {
    OneMore(w, [a], b);
    assert [a] + [b] == [a, b];
    SingleStep(w, a);
  }

  lemma {:induction false} TakeUp(w: World, order: seq<Tombstone>, t: Tombstone)
    requires w.control.Resting? && Lists(order, w.committed)
    requires FirstActionable(order, w.acks, w.receipts) == Some(t)
    ensures After(w, [ScanAcks(order), PublishReceipt, UnlinkRecord]) ==
      World(w.committed - {t}, w.acks, w.receipts + {t}, w.history, Resting)
  {
    hide FirstActionable, Lists;
    OneMore(w, [ScanAcks(order), PublishReceipt], UnlinkRecord);
    OneMore(w, [ScanAcks(order)], PublishReceipt);
    OneMore(w, [], ScanAcks(order));
    assert [] + [ScanAcks(order)] == [ScanAcks(order)];
    hide After;
  }
}