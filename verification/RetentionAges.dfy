/**
 The coordinator's choices joined with the two-party protocol.  The durable writes of the protocol
 that belong to a coordinator's cycle happen only where the coordinator stands in that cycle, and
 the coordinator sees them; everything else, on both sides, is interleaved freely.
 */
module RetentionAges {
  import opened Options
  import opened CentralProtocol
  import opened Tombstones
  import Planning
  import P = Retention
  import S = RetentionSafety
  import T = RetentionTheorems
  import C = Coordination

  datatype Joint = Joint(protocol: P.State, coordinator: C.World)

  /** A step of the protocol, or of the coordinator alone. */
  datatype Move = Act(action: P.Action) | Think(thought: C.Action)

  predicate Private(a: C.Action)
  {
    a.ScanAcks? || a.ScanCommitted? || a.Choose? || a.Stop?
  }

  /** The tombstone that a run is about. */
  function Subject(p: P.Process): Option<Tombstone>
  {
    match p
    case Committing(c, _) => Some(c.prepared)
    case Consuming(c, _) => Some(c.prepared)
    case Clearing(c, _, _) => Some(c.prepared)
    case Tidying(t) => Some(t)
    case _ => None
  }

  /** A commit carries out the coordinator's choice, unless the receipt is there already. */
  predicate IsChosen(control: C.Control, c: Committed, receipts: set<Tombstone>)
  {
    && control.Committing? && control.plan.prepared == c.prepared && control.plan.at == c.at
    && c.prepared !in receipts
  }

  /** The writes that a coordinator's cycle makes are made where the cycle has come to them. */
  predicate Guided(c: C.World, p: P.Process, a: P.Action)
  {
    match a
    case CommitRecord(_) => p.Committing? && IsChosen(c.control, p.record, c.receipts)
    case PublishReceipt(_) => p.Clearing? && c.control == C.Consuming(p.record.prepared)
    case UnlinkCommitted(_) => c.control.Cleaning? && Subject(p) == Some(c.control.cleaned)
    case _ => true
  }

  /** What the coordinator sees of a step of the protocol. */
  function Seen(p: P.Process, a: P.Action): Option<C.Action>
  {
    match a
    case CommitRecord(_) => Some(C.CommitRecord)
    case Acknowledge(_, _) => if p.Consuming? then Some(C.AgentAck(p.record.prepared)) else None
    case PublishReceipt(_) => Some(C.PublishReceipt)
    case UnlinkCommitted(_) => Some(C.UnlinkRecord)
    case _ => None
  }

  function Notice(c: C.World, a: Option<C.Action>): C.World
  {
    if a.Some? then C.Next(c, a.value) else c
  }

  function Performed(j: Joint, a: P.Action): Joint
  {
    if !T.Moves(j.protocol, a) then Joint(P.Next(j.protocol, a), j.coordinator)
    else
      var p := j.protocol.processes[a.pid];
      if Guided(j.coordinator, p, a) then Joint(P.Next(j.protocol, a), Notice(j.coordinator, Seen(p, a))) else j
  }

  function Next(j: Joint, m: Move): Joint
  {
    match m
    case Act(a) => Performed(j, a)
    case Think(a) => if Private(a) then Joint(j.protocol, C.Next(j.coordinator, a)) else j
  }

  function After(j: Joint, run: seq<Move>): Joint
    decreases |run|
  {
    if run == [] then j else After(Next(j, run[0]), run[1..])
  }

  predicate Initial(j: Joint)
  {
    P.Initial(j.protocol) && C.Initial(j.coordinator)
  }

  // ----- the coordinator's books are the ledgers

  /** A record was committed because the coordinator had chosen it, at that time. */
  ghost predicate Chosen(c: C.World, r: Committed)
  {
    exists m :: m in c.history && m.prepared == r.prepared && m.at == r.at
  }

  ghost predicate Linked(w: P.World, c: C.World)
  {
    && c.committed == w.committed && c.receipts == w.receipts.Keys && c.acks == w.acks.Keys
    && (forall r | r in w.history :: Chosen(c, r))
    && (forall r | r in w.history :: r.prepared in w.committed || r.prepared in w.receipts)
  }

  ghost predicate Inv(j: Joint)
  {
    P.Inv(j.protocol) && C.Inv(j.coordinator) && Linked(j.protocol.world, j.coordinator)
  }

  ghost predicate SameBooks(w: P.World, v: P.World)
  {
    v.committed == w.committed && v.history == w.history && v.acks == w.acks && v.receipts == w.receipts
  }

  lemma SameBooksStayLinked(w: P.World, v: P.World, c: C.World)
    requires Linked(w, c) && SameBooks(w, v)
    ensures Linked(v, c)
  {
  }

  lemma StillBooks(s: P.State, a: P.Action)
    requires !T.Moves(s, a)
    ensures SameBooks(s.world, P.Next(s, a).world)
  {
    hide P.Step, P.CanStep, P.MayBegin, P.Begun;
  }

  lemma UnseenBooks(w: P.World, p: P.Process, a: P.Action)
    requires P.CanStep(w, p, a) && Seen(p, a).None?
    ensures SameBooks(w, P.Step(w, p, a).world)
  {
    hide P.CommitStep, P.ConsumeStep, P.ClearStep, P.DispatchStep, P.WorkStep;
    match p
    case Committing(_, _) => UnseenCommit(w, p, a);
    case Consuming(_, _) => UnseenConsume(w, p, a);
    case Clearing(_, _, _) => UnseenClear(w, p, a);
    case Dispatching(_, _, _) => UnseenDispatch(w, p, a);
    case _ => UnseenWork(w, p, a);
  }

  lemma UnseenCommit(w: P.World, p: P.Process, a: P.Action)
    requires p.Committing? && P.CanCommit(w, p, a) && Seen(p, a).None?
    ensures SameBooks(w, P.CommitStep(w, p, a).world)
  {
  }

  lemma UnseenConsume(w: P.World, p: P.Process, a: P.Action)
    requires p.Consuming? && P.CanConsume(w, p, a) && Seen(p, a).None?
    ensures SameBooks(w, P.ConsumeStep(w, p, a).world)
  {
  }

  lemma UnseenClear(w: P.World, p: P.Process, a: P.Action)
    requires p.Clearing? && P.CanClear(w, p, a) && Seen(p, a).None?
    ensures SameBooks(w, P.ClearStep(w, p, a).world)
  {
  }

  lemma UnseenDispatch(w: P.World, p: P.Process, a: P.Action)
    requires p.Dispatching? && P.CanDispatch(w, p, a)
    ensures SameBooks(w, P.DispatchStep(w, p, a).world)
  {
  }

  lemma UnseenWork(w: P.World, p: P.Process, a: P.Action)
    requires P.CanWork(w, p, a) && Seen(p, a).None?
    ensures SameBooks(w, P.WorkStep(w, p, a).world)
  {
  }

  lemma CommitStaysLinked(w: P.World, c: C.World, p: P.Process, a: P.Action)
    requires Linked(w, c) && P.CanStep(w, p, a) && a.CommitRecord? && Guided(c, p, a)
    ensures Linked(P.Step(w, p, a).world, C.Next(c, C.CommitRecord))
  {
    var v, d := P.Step(w, p, a).world, C.Next(c, C.CommitRecord);
    assert d == C.World(v.committed, c.acks, c.receipts, c.history + {c.control.plan}, C.Resting);
    forall r | r in v.history ensures Chosen(d, r) {
      if r == p.record {
        assert c.control.plan in d.history;
      } else {
        var m :| m in c.history && m.prepared == r.prepared && m.at == r.at;
        assert m in d.history;
      }
    }
  }

  lemma AckStaysLinked(w: P.World, c: C.World, p: P.Process, a: P.Action)
    requires Linked(w, c) && P.CanStep(w, p, a) && a.Acknowledge? && p.Consuming?
    requires p.record in w.history && (forall t | t in w.receipts :: t in w.acks)
    ensures Linked(P.Step(w, p, a).world, C.Next(c, C.AgentAck(p.record.prepared)))
  {
    var v, d, t := P.Step(w, p, a).world, C.Next(c, C.AgentAck(p.record.prepared)), p.record.prepared;
    assert v.acks.Keys == w.acks.Keys + {t};
    assert t in w.acks || t in w.committed;
    assert d.acks == v.acks.Keys && d.committed == c.committed && d.receipts == c.receipts && d.history == c.history;
    forall r | r in v.history ensures Chosen(d, r) {
      assert Chosen(c, r);
    }
  }

  lemma ReceiptStaysLinked(w: P.World, c: C.World, p: P.Process, a: P.Action)
    requires Linked(w, c) && P.CanStep(w, p, a) && a.PublishReceipt? && Guided(c, p, a)
    ensures Linked(P.Step(w, p, a).world, C.Next(c, C.PublishReceipt))
  {
    var v, d, t := P.Step(w, p, a).world, C.Next(c, C.PublishReceipt), p.record.prepared;
    assert v.receipts.Keys == w.receipts.Keys + {t};
    forall r | r in v.history ensures Chosen(d, r) {
      assert Chosen(c, r);
    }
  }

  lemma UnlinkStaysLinked(w: P.World, c: C.World, p: P.Process, a: P.Action)
    requires Linked(w, c) && C.Inv(c) && P.CanStep(w, p, a) && a.UnlinkCommitted? && Guided(c, p, a)
    ensures Linked(P.Step(w, p, a).world, C.Next(c, C.UnlinkRecord))
  {
    var v, d, t := P.Step(w, p, a).world, C.Next(c, C.UnlinkRecord), c.control.cleaned;
    assert v.committed == w.committed - {t} && t in w.receipts;
    forall r | r in v.history ensures Chosen(d, r) {
      assert Chosen(c, r);
    }
  }

  lemma ThoughtStaysLinked(w: P.World, c: C.World, a: C.Action)
    requires Linked(w, c) && Private(a)
    ensures Linked(w, C.Next(c, a))
  {
    forall r | r in w.history ensures Chosen(C.Next(c, a), r) {
      assert Chosen(c, r);
    }
  }

  lemma SeenStaysLinked(w: P.World, c: C.World, p: P.Process, a: P.Action)
    requires S.Run(w, p) && S.Ledgers(w) && C.Inv(c) && Linked(w, c) && P.CanStep(w, p, a) && Guided(c, p, a)
    ensures Linked(P.Step(w, p, a).world, Notice(c, Seen(p, a)))
  {
    hide P.Step, P.CanStep, Linked, S.Run, C.Inv, Guided, C.Next;
    assert forall t | t in w.receipts :: t in w.acks;
    hide S.Ledgers;
    if a.CommitRecord? {
      CommitStaysLinked(w, c, p, a);
    } else if a.Acknowledge? {
      ConsumerIsRecorded(w, p, a);
      AckStaysLinked(w, c, p, a);
    } else if a.PublishReceipt? {
      ReceiptStaysLinked(w, c, p, a);
    } else if a.UnlinkCommitted? {
      UnlinkStaysLinked(w, c, p, a);
    } else {
      UnseenBooks(w, p, a);
      SameBooksStayLinked(w, P.Step(w, p, a).world, c);
    }
  }

  lemma ConsumerIsRecorded(w: P.World, p: P.Process, a: P.Action)
    requires S.Run(w, p) && P.CanStep(w, p, a) && a.Acknowledge?
    ensures p.Consuming? && p.record in w.history
  {
  }

  lemma NoticeKeepsInv(c: C.World, a: Option<C.Action>)
    requires C.Inv(c)
    ensures C.Inv(Notice(c, a))
  {
    if a.Some? { C.NextKeepsInv(c, a.value); }
  }

  lemma PerformedKeepsInv(j: Joint, a: P.Action)
    requires Inv(j)
    ensures Inv(Performed(j, a))
  {
    T.NextKeepsInv(j.protocol, a);
    var w, c := j.protocol.world, j.coordinator;
    if !T.Moves(j.protocol, a) {
      StillBooks(j.protocol, a);
      SameBooksStayLinked(w, P.Next(j.protocol, a).world, c);
    } else {
      var p := j.protocol.processes[a.pid];
      if Guided(c, p, a) {
        assert S.Run(w, p) && S.Ledgers(w);
        SeenStaysLinked(w, c, p, a);
        NoticeKeepsInv(c, Seen(p, a));
        hide P.Step, P.CanStep, P.Inv, C.Inv, Linked, Seen, Notice, Guided;
      }
    }
  }

  lemma NextKeepsInv(j: Joint, m: Move)
    requires Inv(j)
    ensures Inv(Next(j, m))
  {
    match m
    case Act(a) => PerformedKeepsInv(j, a);
    case Think(a) =>
      if Private(a) {
        C.NextKeepsInv(j.coordinator, a);
        ThoughtStaysLinked(j.protocol.world, j.coordinator, a);
      }
  }

  lemma {:induction false} AfterKeepsInv(j: Joint, run: seq<Move>)
    requires Inv(j)
    ensures Inv(After(j, run))
    decreases |run|
  {
    if run != [] {
      NextKeepsInv(j, run[0]);
      AfterKeepsInv(Next(j, run[0]), run[1..]);
    }
  }

  lemma InitialInv(j: Joint)
    requires Initial(j)
    ensures Inv(j)
  {
    assert C.Open(j.coordinator) == {} && C.Unacked(j.coordinator) == {};
    T.InitialInv(j.protocol);
    hide P.Inv;
  }

  // ----- both sides of a joint run are runs of their own

  /** A joint run is, on either side, a run of the protocol and a run of the coordinator. */
  lemma {:induction false} Projects(j: Joint, run: seq<Move>) returns (left: seq<P.Action>, right: seq<C.Action>)
    ensures P.After(j.protocol, left) == After(j, run).protocol
    ensures C.After(j.coordinator, right) == After(j, run).coordinator
    decreases |run|
  {
    if run == [] {
      left, right := [], [];
    } else {
      var a, b := StepProjects(j, run[0]);
      left, right := Projects(Next(j, run[0]), run[1..]);
      LeftAppends(j.protocol, a, left);
      C.AfterAppends(j.coordinator, b, right);
      left, right := a + left, b + right;
    }
  }

  lemma {:induction false} LeftAppends(s: P.State, run: seq<P.Action>, more: seq<P.Action>)
    ensures P.After(s, run + more) == P.After(P.After(s, run), more)
    decreases |run|
  {
    if run == [] {
      assert run + more == more;
    } else {
      assert (run + more)[1..] == run[1..] + more;
      LeftAppends(P.Next(s, run[0]), run[1..], more);
    }
  }

  lemma {:induction false} StepProjects(j: Joint, m: Move) returns (left: seq<P.Action>, right: seq<C.Action>)
    ensures P.After(j.protocol, left) == Next(j, m).protocol
    ensures C.After(j.coordinator, right) == Next(j, m).coordinator
  {
    hide P.Next, C.Next;
    left := if Next(j, m).protocol == j.protocol then [] else [m.action];
    right := [];
    if m.Think? && Private(m.thought) {
      right := [m.thought];
    } else if m.Act? && T.Moves(j.protocol, m.action) {
      var p := j.protocol.processes[m.action.pid];
      if Guided(j.coordinator, p, m.action) && Seen(p, m.action).Some? { right := [Seen(p, m.action).value]; }
    }
    if left != [] { assert left[1..] == []; }
    if right != [] { assert right[1..] == []; }
  }

  // ----- age and order of every deletion

  /** What the coordinator chose for this tombstone was of age. */
  ghost predicate OfAge(c: C.World, t: Tombstone, clock: nat, scratchTtl: nat, evidenceTtl: nat)
  {
    exists m :: m in c.history && m.prepared == t && InAge(m, clock, scratchTtl, evidenceTtl)
  }

  predicate InAge(m: C.Commitment, clock: nat, scratchTtl: nat, evidenceTtl: nat)
  {
    if m.prepared.target.Evidence? then
      m.record.delivered.Some? && m.record.delivered.value + evidenceTtl <= clock
    else
      m.record.created + scratchTtl <= clock
  }

  /** Every record that the coordinator reads carries the ages that its query was asked for. */
  predicate Timed(run: seq<Move>, scratchTtl: nat, evidenceTtl: nat)
  {
    forall m | m in run && m.Think? && m.thought.Choose? :: AllAged(m.thought.records, scratchTtl, evidenceTtl)
  }

  predicate AllAged(records: seq<Planning.Record>, scratchTtl: nat, evidenceTtl: nat)
  {
    forall r | r in records :: Planning.Aged(r, scratchTtl, evidenceTtl)
  }

  ghost predicate ChosenAged(c: C.World, scratchTtl: nat, evidenceTtl: nat)
  {
    && (forall m | m in c.history :: Planning.Aged(m.record, scratchTtl, evidenceTtl))
    && (c.control.Committing? ==> Planning.Aged(c.control.plan.record, scratchTtl, evidenceTtl))
  }

  lemma ChoiceKeepsAged(c: C.World, a: C.Action, scratchTtl: nat, evidenceTtl: nat)
    requires ChosenAged(c, scratchTtl, evidenceTtl)
    requires a.Choose? ==> AllAged(a.records, scratchTtl, evidenceTtl)
    ensures ChosenAged(C.Next(c, a), scratchTtl, evidenceTtl)
  {
    hide Planning.Aged;
  }

  lemma MoveKeepsAged(j: Joint, m: Move, scratchTtl: nat, evidenceTtl: nat)
    requires ChosenAged(j.coordinator, scratchTtl, evidenceTtl) && Timed([m], scratchTtl, evidenceTtl)
    ensures ChosenAged(Next(j, m).coordinator, scratchTtl, evidenceTtl)
  {
    hide P.Next, C.Next, ChosenAged, AllAged;
    if m.Think? {
      if Private(m.thought) { ChoiceKeepsAged(j.coordinator, m.thought, scratchTtl, evidenceTtl); }
    } else if T.Moves(j.protocol, m.action) {
      var seen := Seen(j.protocol.processes[m.action.pid], m.action);
      if seen.Some? { ChoiceKeepsAged(j.coordinator, seen.value, scratchTtl, evidenceTtl); }
    }
  }

  lemma {:induction false} RunKeepsAged(j: Joint, run: seq<Move>, scratchTtl: nat, evidenceTtl: nat)
    requires ChosenAged(j.coordinator, scratchTtl, evidenceTtl) && Timed(run, scratchTtl, evidenceTtl)
    ensures ChosenAged(After(j, run).coordinator, scratchTtl, evidenceTtl)
    decreases |run|
  {
    if run != [] {
      assert run[0] in run;
      hide ChosenAged;
      MoveKeepsAged(j, run[0], scratchTtl, evidenceTtl);
      RunKeepsAged(Next(j, run[0]), run[1..], scratchTtl, evidenceTtl);
    }
  }

  /** The tombstone's age has come, counted from the delivery or the execution it is for. */
  ghost predicate Due(j: Joint, t: Tombstone, scratchTtl: nat, evidenceTtl: nat)
  {
    OfAge(j.coordinator, t, j.protocol.world.clock, scratchTtl, evidenceTtl)
  }

  lemma HistoryIsChosen(initial: Joint, run: seq<Move>, r: Committed) returns (m: C.Commitment)
    requires Initial(initial) && r in After(initial, run).protocol.world.history
    ensures m in After(initial, run).coordinator.history && m.prepared == r.prepared && m.at == r.at
    ensures After(initial, run).coordinator.receipts == After(initial, run).protocol.world.receipts.Keys
  {
    InitialInv(initial);
    AfterKeepsInv(initial, run);
    hide P.Inv, C.Inv;
    var c := After(initial, run).coordinator;
    assert Chosen(c, r);
    m :| m in c.history && m.prepared == r.prepared && m.at == r.at;
  }

  lemma {:induction false} RecordedOfAge(initial: Joint, run: seq<Move>, r: Committed, scratchTtl: nat, evidenceTtl: nat)
    requires Initial(initial) && Timed(run, scratchTtl, evidenceTtl)
    requires P.Recorded(After(initial, run).protocol.world, r)
    ensures Due(After(initial, run), r.prepared, scratchTtl, evidenceTtl)
  {
    var j := After(initial, run);
    var m := HistoryIsChosen(initial, run, r);
    var _, right := Projects(initial, run);
    RunKeepsAged(initial, run, scratchTtl, evidenceTtl);
    C.CommittedInAge(initial.coordinator, right, m, scratchTtl, evidenceTtl);
    assert InAge(m, j.protocol.world.clock, scratchTtl, evidenceTtl);
  }

  lemma {:induction false} IntendedIsDue(initial: Joint, run: seq<Move>, t: Tombstone, scratchTtl: nat, evidenceTtl: nat)
    requires Initial(initial) && Timed(run, scratchTtl, evidenceTtl)
    requires T.IntendedAndDue(After(initial, run).protocol.world, t)
    ensures Due(After(initial, run), t, scratchTtl, evidenceTtl)
  {
    InitialInv(initial);
    AfterKeepsInv(initial, run);
    RecordedOfAge(initial, run, After(initial, run).protocol.world.intents[t], scratchTtl, evidenceTtl);
  }

  lemma {:induction false} AckedIsDue(initial: Joint, run: seq<Move>, t: Tombstone, scratchTtl: nat, evidenceTtl: nat)
    requires Initial(initial) && Timed(run, scratchTtl, evidenceTtl)
    requires T.AckedAndDue(After(initial, run).protocol.world, t)
    ensures Due(After(initial, run), t, scratchTtl, evidenceTtl)
  {
    InitialInv(initial);
    AfterKeepsInv(initial, run);
    var w := After(initial, run).protocol.world;
    assert P.Acknowledged(w, t, w.acks[t]);
    RecordedOfAge(initial, run, Committed(t, w.acks[t].committedAt), scratchTtl, evidenceTtl);
  }

  /** Nothing of the tombstone's targets is left on either side. */
  ghost predicate IsGone(w: P.World, u: Tombstone)
  {
    && (forall k | k in u.Jobs() :: k !in w.jobs && k !in w.workspaces && k !in w.trash && k !in w.results)
    && (u.Dispatch().Some? ==> u.Dispatch().value !in w.dispatches)
  }

  ghost predicate ScratchIsGone(w: P.World, task: Task)
  {
    exists u :: u in w.receipts && u.task == task && !u.target.Evidence? && IsGone(w, u)
  }

  lemma {:induction false} ReceiptIsGone(initial: Joint, run: seq<Move>, u: Tombstone)
    requires Initial(initial) && u in After(initial, run).protocol.world.receipts
    ensures IsGone(After(initial, run).protocol.world, u)
  {
    var left, _ := Projects(initial, run);
    T.OrderingHolds(initial.protocol, left);
    hide After, P.After, P.Initial, C.Initial;
  }

  /** Before a bundle is committed, the scratch of its event is gone from both sides, for good. */
  lemma {:induction false} BundleAfterScratch(initial: Joint, run: seq<Move>, t: Tombstone)
    requires Initial(initial) && t.target.Evidence?
    requires exists at :: Committed(t, at) in After(initial, run).protocol.world.history
    ensures ScratchIsGone(After(initial, run).protocol.world, t.task)
  {
    var j := After(initial, run);
    var at :| Committed(t, at) in j.protocol.world.history;
    var m := HistoryIsChosen(initial, run, Committed(t, at));
    var _, right := Projects(initial, run);
    hide After, P.Initial;
    C.BundleAfterScratch(initial.coordinator, right, m);
    var u :| u in j.coordinator.receipts && u.task == t.task && !u.target.Evidence?;
    ReceiptIsGone(initial, run, u);
    hide IsGone;
  }

  /** The step of a joint run that the protocol makes. */
  lemma ProtocolStep(j: Joint, m: Move) returns (a: P.Action)
    ensures Next(j, m).protocol == j.protocol || (m == Act(a) && Next(j, m).protocol == P.Next(j.protocol, a))
  {
    a := if m.Act? then m.action else P.Tick(0);
  }

  /**
   A bundle is deleted only when its delivery plus the evidence age has passed, and when the scratch
   of its event is gone from both sides.
   */
  lemma BundlesDeletedInAge(initial: Joint, run: seq<Move>, m: Move, b: Digest, scratchTtl: nat, evidenceTtl: nat)
    returns (c: C.Commitment)
    requires Initial(initial) && Timed(run, scratchTtl, evidenceTtl)
    requires var j := After(initial, run);
      b in j.protocol.world.bundles && b !in Next(j, m).protocol.world.bundles
    ensures var j := After(initial, run);
      && c in j.coordinator.history && c.prepared.target == Evidence(b)
      && c.record.delivered.Some? && c.record.delivered.value + evidenceTtl <= j.protocol.world.clock
      && ScratchIsGone(j.protocol.world, c.prepared.task)
  {
    InitialInv(initial);
    AfterKeepsInv(initial, run);
    var j := After(initial, run);
    var a := ProtocolStep(j, m);
    T.AgentDeletesAfterIntent(j.protocol, a);
    var t :| T.IntendedAndDue(j.protocol.world, t) && t.target == Evidence(b);
    IntendedIsDue(initial, run, t, scratchTtl, evidenceTtl);
    c :| c in j.coordinator.history && c.prepared == t && InAge(c, j.protocol.world.clock, scratchTtl, evidenceTtl);
    var r := j.protocol.world.intents[t];
    assert P.Recorded(j.protocol.world, r) && r.prepared == t;
    assert Committed(t, r.at) in j.protocol.world.history;
    BundleAfterScratch(initial, run, t);
  }

  /** The executor of a job without a barrier starts its workspace afresh. */
  ghost predicate IsReset(j: Joint, m: Move, k: Digest)
  {
    m.Act? && T.ResetsUnbarred(j.protocol, m.action, k)
  }

  /**
   What the agent holds of an execution is deleted only when the execution's creation plus the
   scratch age has passed.
   */
  lemma AgentScratchDeletedInAge(
      initial: Joint, run: seq<Move>, m: Move, k: Digest, scratchTtl: nat, evidenceTtl: nat) returns (c: C.Commitment)
    requires Initial(initial) && Timed(run, scratchTtl, evidenceTtl)
    requires var w, v := After(initial, run).protocol.world, Next(After(initial, run), m).protocol.world;
      || (k in w.results && k !in v.results) || (k in w.trash && k !in v.trash)
      || (k in w.workspaces && k !in v.workspaces && !IsReset(After(initial, run), m, k))
    ensures var j := After(initial, run);
      && c in j.coordinator.history && k in c.prepared.Jobs() && !c.prepared.target.Evidence?
      && c.record.created + scratchTtl <= j.protocol.world.clock
  {
    InitialInv(initial);
    AfterKeepsInv(initial, run);
    var j := After(initial, run);
    var a := ProtocolStep(j, m);
    T.AgentDeletesAfterIntent(j.protocol, a);
    T.WorkspacesGoForAReason(j.protocol, a);
    hide P.Next, P.Inv, C.Inv, T.IntendedAndDue;
    var t :| T.IntendedAndDue(j.protocol.world, t) && k in t.Jobs();
    IntendedIsDue(initial, run, t, scratchTtl, evidenceTtl);
    c :| c in j.coordinator.history && c.prepared == t && InAge(c, j.protocol.world.clock, scratchTtl, evidenceTtl);
  }

  ghost predicate LosesControllerScratch(j: Joint, m: Move, k: Digest)
  {
    var w, v := j.protocol.world, Next(j, m).protocol.world;
    (k in w.jobs && k !in v.jobs) || (k in w.dispatches && k !in v.dispatches)
  }

  lemma DeletedUnderAck(j: Joint, m: Move, k: Digest) returns (t: Tombstone)
    requires P.Inv(j.protocol) && LosesControllerScratch(j, m, k)
    ensures T.AckedAndDue(j.protocol.world, t) && !t.target.Evidence?
    ensures k in t.Jobs() || t.Dispatch() == Some(k)
  {
    var a := ProtocolStep(j, m);
    T.ControllerDeletesAfterAck(j.protocol, a);
    hide P.Next, P.Inv, T.AckedAndDue;
    if k in j.protocol.world.jobs && k !in Next(j, m).protocol.world.jobs {
      t :| T.AckedAndDue(j.protocol.world, t) && k in t.Jobs();
    } else {
      t :| T.AckedAndDue(j.protocol.world, t) && t.Dispatch() == Some(k);
    }
  }

  /** So is what the controller holds of it: its job directories and its dispatch record. */
  lemma ControllerScratchDeletedInAge(
      initial: Joint, run: seq<Move>, m: Move, k: Digest, scratchTtl: nat, evidenceTtl: nat) returns (c: C.Commitment)
    requires Initial(initial) && Timed(run, scratchTtl, evidenceTtl)
    requires LosesControllerScratch(After(initial, run), m, k)
    ensures var j := After(initial, run);
      && c in j.coordinator.history && !c.prepared.target.Evidence?
      && (k in c.prepared.Jobs() || c.prepared.Dispatch() == Some(k))
      && c.record.created + scratchTtl <= j.protocol.world.clock
  {
    InitialInv(initial);
    AfterKeepsInv(initial, run);
    var j := After(initial, run);
    var t := DeletedUnderAck(j, m, k);
    AckedIsDue(initial, run, t, scratchTtl, evidenceTtl);
    c :| c in j.coordinator.history && c.prepared == t && InAge(c, j.protocol.world.clock, scratchTtl, evidenceTtl);
  }

  // ----- a chosen bundle does go

  /**
   The coordinator has chosen a bundle that is due, nobody else is at work, and nothing of the
   tombstone is published.
   */
  ghost predicate BundleChosen(j: Joint, c: Committed)
  {
    var w := j.protocol.world;
    && j.protocol.processes == map[] && c.prepared.target.Evidence? && P.Eligible(w, c)
    && IsChosen(j.coordinator.control, c, j.coordinator.receipts)
    && c.prepared !in w.committed && c.prepared !in w.intents && c.prepared !in w.acks
    && j.coordinator.committed == w.committed
  }

  lemma {:induction false} AfterPair(j: Joint, a: Move, b: Move)
    ensures After(j, [a, b]) == Next(Next(j, a), b)
  {
    hide Next;
    assert [a, b][1..] == [b] && [b][1..] == [];
    assert After(Next(Next(j, a), b), []) == Next(Next(j, a), b);
    assert After(Next(j, a), [b]) == Next(Next(j, a), b);
  }

  lemma {:induction false} AfterAppends(j: Joint, run: seq<Move>, more: seq<Move>)
    ensures After(j, run + more) == After(After(j, run), more)
    decreases |run|
  {
    if run == [] {
      assert run + more == more;
    } else {
      assert (run + more)[1..] == run[1..] + more;
      AfterAppends(Next(j, run[0]), run[1..], more);
    }
  }

  lemma {:induction false} BundleIsCommitted(j: Joint, c: Committed)
    requires BundleChosen(j, c)
    ensures var w := j.protocol.world;
      var v := w.(committed := w.committed[c.prepared := c.at], history := w.history + {c});
      After(j, [Act(P.CommitBegin(0, c)), Act(P.CommitRecord(0))]) ==
        Joint(P.State(v, map[]), C.Next(j.coordinator, C.CommitRecord))
  {
    AfterPair(j, Act(P.CommitBegin(0, c)), Act(P.CommitRecord(0)));
    hide After;
    var begun := P.State(j.protocol.world, map[0 := P.Committing(c, 0)]);
    assert P.Next(j.protocol, P.CommitBegin(0, c)) == begun;
    assert T.Moves(begun, P.CommitRecord(0));
    assert begun.processes - {0} == map[];
  }

  lemma BundleIsIntended(s: P.State, d: C.World, c: Committed)
    requires s.processes == map[] && c.prepared.target.Evidence? && P.Eligible(s.world, c)
    requires c in s.world.history && c.prepared !in s.world.intents
    ensures var w := s.world;
      After(Joint(s, d), [Act(P.ConsumeBegin(0, c)), Act(P.ConsumeIntent(0))]) ==
        Joint(P.State(w.(intents := w.intents[c.prepared := c]), map[0 := P.Consuming(c, P.Unlinking(0))]), d)
  {
    AfterPair(Joint(s, d), Act(P.ConsumeBegin(0, c)), Act(P.ConsumeIntent(0)));
    hide After;
    var begun := P.State(s.world, map[0 := P.Consuming(c, P.Barring(0))]);
    assert P.Next(s, P.ConsumeBegin(0, c)) == begun;
    assert T.Moves(begun, P.ConsumeIntent(0));
  }

  lemma BundleIsAcknowledged(s: P.State, d: C.World, c: Committed)
    requires s.processes == map[0 := P.Consuming(c, P.Unlinking(0))] && c.prepared.target.Evidence?
    requires c.at <= s.world.clock && c.prepared !in s.world.acks
    ensures var w, t := s.world, c.prepared;
      After(Joint(s, d), [Act(P.UnlinkBundle(0)), Act(P.Acknowledge(0, w.clock))]) ==
        Joint(
          P.State(w.(bundles := w.bundles - {t.target.bundle}, acks := w.acks[t := Ack(c.at, w.clock)]), map[]),
          C.Next(d, C.AgentAck(t)))
  {
    var w := s.world;
    AfterPair(Joint(s, d), Act(P.UnlinkBundle(0)), Act(P.Acknowledge(0, w.clock)));
    hide After;
    var unlinked :=
      P.State(w.(bundles := w.bundles - {c.prepared.target.bundle}), map[0 := P.Consuming(c, P.Acknowledging)]);
    assert T.Moves(s, P.UnlinkBundle(0));
    assert P.Next(s, P.UnlinkBundle(0)) == unlinked;
    assert T.Moves(unlinked, P.Acknowledge(0, w.clock));
    assert unlinked.processes - {0} == map[];
  }

  lemma CoordinatorLearns(d: C.World, c: Committed)
    requires IsChosen(d.control, c, d.receipts) && c.prepared !in d.committed
    ensures var e := C.Next(C.Next(d, C.CommitRecord), C.AgentAck(c.prepared));
      c.prepared in e.acks && c.prepared in e.committed && e.control.Resting?
  {
  }

  /** From there the protocol can delete the bundle and acknowledge it, and the coordinator learns of both. */
  lemma {:induction false} ChosenBundleGoes(j: Joint, c: Committed) returns (run: seq<Move>)
    requires BundleChosen(j, c)
    ensures var k := After(j, run);
      && c.prepared.target.bundle !in k.protocol.world.bundles
      && c.prepared in k.protocol.world.acks && c.prepared in k.coordinator.acks
      && c.prepared in k.coordinator.committed && k.coordinator.control.Resting?
  {
    var w := j.protocol.world;
    var one := [Act(P.CommitBegin(0, c)), Act(P.CommitRecord(0))];
    var two := [Act(P.ConsumeBegin(0, c)), Act(P.ConsumeIntent(0))];
    var three := [Act(P.UnlinkBundle(0)), Act(P.Acknowledge(0, w.clock))];
    CoordinatorLearns(j.coordinator, c);
    BundleIsCommitted(j, c);
    hide After, C.Next, IsChosen;
    var j1 := After(j, one);
    BundleIsIntended(j1.protocol, j1.coordinator, c);
    var j2 := After(j1, two);
    BundleIsAcknowledged(j2.protocol, j2.coordinator, c);
    AfterAppends(j, one, two);
    AfterAppends(j, one + two, three);
    run := one + two + three;
  }
}
