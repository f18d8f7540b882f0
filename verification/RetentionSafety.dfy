/** What every interleaving of the retention protocol keeps. */
module RetentionSafety {
  import opened Options
  import opened Tombstones
  import opened Retention

  // ----- what no step undoes

  ghost predicate Extends<K, V>(a: map<K, V>, b: map<K, V>)
  {
    forall k | k in a :: k in b && b[k] == a[k]
  }

  /** Barriers, intents, acknowledgements and receipts stay as they are once they are there. */
  ghost predicate Grows(w: World, v: World)
  {
    && w.clock <= v.clock
    && w.history <= v.history
    && Extends(w.barriers, v.barriers) && Extends(w.agentBarriers, v.agentBarriers)
    && Extends(w.intents, v.intents) && Extends(w.acks, v.acks) && Extends(w.receipts, v.receipts)
    && w.calls <= v.calls
    && w.transcripts <= v.transcripts
  }

  /** What a barrier forbids does not come into being. */
  ghost predicate Heeds(w: World, v: World)
  {
    && (forall j | j in v.jobs && j in w.barriers :: j in w.jobs)
    && (forall k | k in v.dispatches && k in w.barriers :: k in w.dispatches)
    && (forall j | j in w.agentBarriers && (j in v.workspaces || j in v.trash) :: j in w.workspaces || j in w.trash)
    && (forall j | j in w.agentBarriers && j in v.results :: j in w.results)
  }

  /** A step touches barriers, dispatch records and remote calls only under the locks of its run. */
  ghost predicate Confined(w: World, v: World, controller: set<Digest>, agent: set<Digest>)
  {
    && (forall j | j in v.barriers && j !in w.barriers :: j in controller)
    && (forall j | j in v.agentBarriers && j !in w.agentBarriers :: j in agent)
    && (forall k | k !in controller :: k in v.dispatches <==> k in w.dispatches)
    && (forall k | k !in controller && k in v.dispatches :: v.dispatches[k] == w.dispatches[k])
    && w.calls <= v.calls
    && (forall i | |w.calls| <= i < |v.calls| :: v.calls[i].key in controller)
  }

  ghost predicate Behaves(w: World, v: World, p: Process)
  {
    Grows(w, v) && Heeds(w, v) && Confined(w, v, ControllerLocks(p), AgentLocks(p))
  }

  lemma CommitBehaves(w: World, p: Process, a: Action)
    requires p.Committing? && CanCommit(w, p, a)
    ensures Behaves(w, CommitStep(w, p, a).world, p)
  {
  }

  lemma ConsumeBehaves(w: World, p: Process, a: Action)
    requires p.Consuming? && CanConsume(w, p, a)
    ensures Behaves(w, ConsumeStep(w, p, a).world, p)
  {
  }

  lemma ClearBehaves(w: World, p: Process, a: Action)
    requires p.Clearing? && CanClear(w, p, a) && WellFormed(p.record.prepared)
    ensures Behaves(w, ClearStep(w, p, a).world, p)
  {
    BarriersCover(p.record.prepared);
  }

  lemma WorkBehaves(w: World, p: Process, a: Action)
    requires CanWork(w, p, a) && WorkRun(w, p)
    ensures Behaves(w, WorkStep(w, p, a).world, p)
  {
  }

  lemma DispatchBehaves(w: World, p: Process, a: Action)
    requires p.Dispatching? && CanDispatch(w, p, a) && WorkRun(w, p)
    ensures Behaves(w, DispatchStep(w, p, a).world, p)
  {
  }

  // ----- what a step leaves true for everybody

  lemma KeepsRecorded(w: World, v: World, c: Committed)
    requires Grows(w, v) && Recorded(w, c)
    ensures Recorded(v, c)
  {
  }

  /** Where every job is barred, what is gone stays gone. */
  lemma KeepsEmpty(w: World, v: World, c: Committed, n: nat)
    requires Grows(w, v) && Heeds(w, v) && WellFormed(c.prepared) && FullyBarred(w.agentBarriers, c)
    requires n <= |c.prepared.Jobs()|
    ensures FullyBarred(v.agentBarriers, c)
    ensures Emptied(w, c.prepared, n) ==> Emptied(v, c.prepared, n)
    ensures Resultless(w, c.prepared, n) ==> Resultless(v, c.prepared, n)
  {
    BarriersCover(c.prepared);
    forall i | 0 <= i < n ensures c.prepared.Jobs()[i] in w.agentBarriers {
      assert c.prepared.Jobs()[i] in c.prepared.Barriers();
    }
  }

  lemma KeepsRemoved(w: World, v: World, c: Committed, n: nat)
    requires Grows(w, v) && Heeds(w, v) && Recorded(w, c)
    requires n <= |c.prepared.Jobs()|
    ensures Jobless(w, c.prepared, n) ==> Jobless(v, c.prepared, n)
    ensures Removed(w, c.prepared) ==> Removed(v, c.prepared)
  {
    BarriersCover(c.prepared);
    forall j | j in c.prepared.Barriers() ensures j in w.barriers {
    }
    forall i | 0 <= i < |c.prepared.Jobs()| ensures c.prepared.Jobs()[i] in w.barriers {
      assert c.prepared.Jobs()[i] in c.prepared.Barriers();
    }
  }

  lemma KeepsAcknowledged(w: World, v: World, u: Tombstone, a: Ack)
    requires Grows(w, v) && Heeds(w, v) && Acknowledged(w, u, a)
    ensures Acknowledged(v, u, a)
  {
    KeepsRecorded(w, v, Committed(u, a.committedAt));
    KeepsEmpty(w, v, Committed(u, a.committedAt), |u.Jobs()|);
  }

  lemma KeepsRetentionRun(w: World, v: World, p: Process)
    requires Grows(w, v) && Heeds(w, v) && RetentionRun(w, p)
    ensures RetentionRun(v, p)
  {
    match p
    case Consuming(c, stage) =>
      KeepsRecorded(w, v, c);
      if !stage.Barring? { KeepsEmpty(w, v, c, |c.prepared.Jobs()|); }
      if stage.Emptying? { KeepsEmpty(w, v, c, stage.job); }
      if stage.Unlinking? { KeepsEmpty(w, v, c, stage.result); }
    case Clearing(c, _, stage) =>
      KeepsRecorded(w, v, c);
      KeepsRemoved(w, v, c, if stage.Deleting? then stage.job else 0);
    case _ =>
  }

  lemma KeepsWorkRun(w: World, v: World, p: Process, q: Process)
    requires Behaves(w, v, p) && WorkRun(w, q)
    requires ControllerLocks(p) !! ControllerLocks(q) && AgentLocks(p) !! AgentLocks(q)
    ensures WorkRun(v, q)
  {
  }

  // ----- what a step establishes for its own run

  ghost predicate Run(w: World, p: Process)
  {
    RetentionRun(w, p) && WorkRun(w, p)
  }

  ghost predicate Continues(m: Moved, p: Process)
  {
    m.next.Some? ==>
      && ControllerLocks(m.next.value) == ControllerLocks(p)
      && AgentLocks(m.next.value) == AgentLocks(p)
      && Run(m.world, m.next.value)
  }

  lemma CommitContinues(w: World, p: Process, a: Action)
    requires Run(w, p) && p.Committing? && CanCommit(w, p, a)
    ensures Continues(CommitStep(w, p, a), p)
  {
  }

  lemma BarringContinues(w: World, p: Process, a: Action)
    requires Run(w, p) && p.Consuming? && p.consumed.Barring? && CanConsume(w, p, a)
    ensures Continues(ConsumeStep(w, p, a), p)
  {
  }

  lemma EmptyingContinues(w: World, p: Process, a: Action)
    requires Run(w, p) && p.Consuming? && p.consumed.Emptying? && CanConsume(w, p, a)
    ensures Continues(ConsumeStep(w, p, a), p)
  {
    assert Consumes(ConsumeStep(w, p, a).world, p.record);
  }

  lemma UnlinkingContinues(w: World, p: Process, a: Action)
    requires Run(w, p) && p.Consuming? && p.consumed.Unlinking? && CanConsume(w, p, a)
    ensures Continues(ConsumeStep(w, p, a), p)
  {
  }

  lemma AcknowledgingContinues(w: World, p: Process, a: Action)
    requires p.Consuming? && p.consumed.Acknowledging? && CanConsume(w, p, a)
    ensures Continues(ConsumeStep(w, p, a), p)
  {
  }

  lemma ConsumeContinues(w: World, p: Process, a: Action)
    requires Run(w, p) && p.Consuming? && CanConsume(w, p, a)
    ensures Continues(ConsumeStep(w, p, a), p)
  {
    hide Run, Continues, ConsumeStep, CanConsume;
    match p.consumed
    case Barring(_) => BarringContinues(w, p, a);
    case Emptying(_) => EmptyingContinues(w, p, a);
    case Unlinking(_) => UnlinkingContinues(w, p, a);
    case Acknowledging => AcknowledgingContinues(w, p, a);
  }

  lemma ClearContinues(w: World, p: Process, a: Action)
    requires Run(w, p) && p.Clearing? && CanClear(w, p, a)
    ensures Continues(ClearStep(w, p, a), p)
  {
  }

  lemma WorkContinues(w: World, p: Process, a: Action)
    requires Run(w, p) && CanWork(w, p, a)
    ensures Continues(WorkStep(w, p, a), p)
  {
  }

  lemma DispatchContinues(w: World, p: Process, a: Action)
    requires Run(w, p) && p.Dispatching? && CanDispatch(w, p, a) && Dispatched(w)
    ensures Continues(DispatchStep(w, p, a), p)
  {
    if p.stage.Linked? {
      var v := DispatchStep(w, p, a).world;
      assert v.calls[|w.calls|] == Call(p.key, p.request, a.reply);
    }
  }

  // ----- what a step leaves true of the ledgers

  ghost predicate Ledgers(w: World)
  {
    ControllerLedgers(w) && AgentLedgers(w)
  }

  lemma KeepsReceipt(w: World, v: World, u: Tombstone)
    requires Grows(w, v) && Heeds(w, v) && Ledgers(w) && u in w.receipts
    ensures u in v.acks && u in v.receipts && v.acks[u] == v.receipts[u] && Removed(v, u)
  {
    hide WellFormed;
    KeepsRemoved(w, v, Committed(u, w.acks[u].committedAt), 0);
  }

  lemma KeepsIntent(w: World, v: World, u: Tombstone)
    requires Grows(w, v) && Ledgers(w) && u in w.intents
    ensures u in v.intents && v.intents[u].prepared == u && Consumes(v, v.intents[u])
  {
    hide WellFormed;
    KeepsRecorded(w, v, w.intents[u]);
  }

  lemma KeepsAck(w: World, v: World, u: Tombstone)
    requires Grows(w, v) && Heeds(w, v) && Ledgers(w) && u in w.acks
    ensures u in v.acks && Acknowledged(v, u, v.acks[u])
  {
    hide WellFormed;
    KeepsAcknowledged(w, v, u, w.acks[u]);
  }

  /** Old entries stay justified, so a step has to justify the new ones only. */
  lemma KeepsControllerLedgers(w: World, v: World)
    requires Grows(w, v) && Heeds(w, v) && Ledgers(w)
    requires forall u | u in v.committed :: Committed(u, v.committed[u]) in v.history
    requires forall c | c in v.history && c !in w.history :: Recorded(v, c)
    requires forall u | u in v.receipts && u !in w.receipts ::
      u in v.acks && v.acks[u] == v.receipts[u] && Removed(v, u)
    ensures ControllerLedgers(v)
  {
    forall c | c in w.history ensures Recorded(v, c) {
      KeepsRecorded(w, v, c);
    }
    forall u | u in w.receipts ensures u in v.acks && u in v.receipts && v.acks[u] == v.receipts[u] && Removed(v, u) {
      KeepsReceipt(w, v, u);
    }
    hide Recorded, Removed, Grows, Heeds, Ledgers;
  }

  lemma KeepsAgentLedgers(w: World, v: World)
    requires Grows(w, v) && Heeds(w, v) && Ledgers(w)
    requires forall u | u in v.intents && u !in w.intents :: v.intents[u].prepared == u && Consumes(v, v.intents[u])
    requires forall u | u in v.acks && u !in w.acks :: Acknowledged(v, u, v.acks[u])
    ensures AgentLedgers(v)
  {
    forall u | u in w.intents ensures u in v.intents && Consumes(v, v.intents[u]) && v.intents[u].prepared == u {
      KeepsIntent(w, v, u);
    }
    forall u | u in w.acks ensures u in v.acks && Acknowledged(v, u, v.acks[u]) {
      KeepsAck(w, v, u);
    }
    hide Recorded, Acknowledged, Grows, Heeds, Ledgers;
  }

  ghost predicate SameLedgers(w: World, v: World)
  {
    && v.committed == w.committed && v.history == w.history && v.receipts == w.receipts
    && v.intents == w.intents && v.acks == w.acks
  }

  lemma SameKeepsLedgers(w: World, v: World)
    requires Grows(w, v) && Heeds(w, v) && Ledgers(w) && SameLedgers(w, v)
    ensures Ledgers(v)
  {
    hide Grows, Heeds, Recorded, Acknowledged, Removed, Consumes;
    KeepsControllerLedgers(w, v);
    KeepsAgentLedgers(w, v);
  }

  lemma AddsRecord(w: World, c: Committed)
    requires Ledgers(w) && Eligible(w, c) && FullyBarred(w.barriers, c) && Accepts(w.committed, c.prepared, c.at)
    ensures Ledgers(w.(committed := w.committed[c.prepared := c.at], history := w.history + {c}))
  {
    var v := w.(committed := w.committed[c.prepared := c.at], history := w.history + {c});
    assert Recorded(v, c);
    hide Recorded, Acknowledged, Removed, Consumes, WellFormed;
    KeepsControllerLedgers(w, v);
    KeepsAgentLedgers(w, v);
  }

  lemma AddsIntent(w: World, c: Committed)
    requires Ledgers(w) && Recorded(w, c) && FullyBarred(w.agentBarriers, c) && Accepts(w.intents, c.prepared, c)
    ensures Ledgers(w.(intents := w.intents[c.prepared := c]))
  {
    var v := w.(intents := w.intents[c.prepared := c]);
    assert Consumes(v, c);
    hide Recorded, Acknowledged, Removed, Consumes, WellFormed;
    KeepsControllerLedgers(w, v);
    KeepsAgentLedgers(w, v);
  }

  lemma AddsAck(w: World, t: Tombstone, a: Ack)
    requires Ledgers(w) && Acknowledged(w, t, a) && Accepts(w.acks, t, a)
    ensures Ledgers(w.(acks := w.acks[t := a]))
  {
    var v := w.(acks := w.acks[t := a]);
    hide WellFormed;
    AckStays(w, t, a);
    assert forall u | u in v.committed :: Committed(u, v.committed[u]) in v.history;
    hide ControllerLedgers, AgentLedgers, Recorded, Acknowledged, Removed, Consumes;
    KeepsControllerLedgers(w, v);
    KeepsAgentLedgers(w, v);
  }

  lemma AckStays(w: World, t: Tombstone, a: Ack)
    requires Acknowledged(w, t, a) && Accepts(w.acks, t, a)
    ensures var v := w.(acks := w.acks[t := a]);
      Grows(w, v) && Heeds(w, v) && Acknowledged(v, t, a)
  {
  }

  lemma AddsReceipt(w: World, t: Tombstone, a: Ack)
    requires Ledgers(w) && t in w.acks && w.acks[t] == a && Removed(w, t) && Accepts(w.receipts, t, a)
    ensures Ledgers(w.(receipts := w.receipts[t := a]))
  {
    var v := w.(receipts := w.receipts[t := a]);
    ReceiptStays(w, t, a);
    assert forall u | u in v.committed :: Committed(u, v.committed[u]) in v.history;
    hide ControllerLedgers, AgentLedgers, Recorded, Acknowledged, Removed, Consumes;
    KeepsControllerLedgers(w, v);
    KeepsAgentLedgers(w, v);
  }

  lemma ReceiptStays(w: World, t: Tombstone, a: Ack)
    requires Removed(w, t) && Accepts(w.receipts, t, a)
    ensures var v := w.(receipts := w.receipts[t := a]);
      Grows(w, v) && Heeds(w, v) && Removed(v, t)
  {
  }

  lemma DropsCommitted(w: World, t: Tombstone)
    requires Ledgers(w)
    ensures Ledgers(w.(committed := w.committed - {t}))
  {
    var v := w.(committed := w.committed - {t});
    hide Recorded, Acknowledged, Removed, Consumes, WellFormed;
    KeepsControllerLedgers(w, v);
    KeepsAgentLedgers(w, v);
  }

  lemma CommitLedgers(w: World, p: Process, a: Action)
    requires Run(w, p) && p.Committing? && CanCommit(w, p, a) && Ledgers(w)
    ensures Ledgers(CommitStep(w, p, a).world)
  {
    hide Ledgers, WellFormed;
    if a.CommitRecord? {
      AddsRecord(w, p.record);
    } else {
      CommitBehaves(w, p, a);
      SameKeepsLedgers(w, CommitStep(w, p, a).world);
    }
  }

  lemma ConsumeLedgers(w: World, p: Process, a: Action)
    requires Run(w, p) && p.Consuming? && CanConsume(w, p, a) && Ledgers(w)
    ensures Ledgers(ConsumeStep(w, p, a).world)
  {
    hide Ledgers, WellFormed;
    if a.ConsumeIntent? {
      AddsIntent(w, p.record);
    } else if a.Acknowledge? {
      AddsAck(w, p.record.prepared, Ack(p.record.at, a.at));
    } else {
      ConsumeBehaves(w, p, a);
      hide Behaves, RetentionRun, WorkRun;
      SameKeepsLedgers(w, ConsumeStep(w, p, a).world);
    }
  }

  lemma ClearLedgers(w: World, p: Process, a: Action)
    requires Run(w, p) && p.Clearing? && CanClear(w, p, a) && Ledgers(w)
    ensures Ledgers(ClearStep(w, p, a).world)
  {
    hide Ledgers, WellFormed;
    if a.PublishReceipt? {
      AddsReceipt(w, p.record.prepared, p.ack);
    } else if a.UnlinkCommitted? {
      DropsCommitted(w, p.record.prepared);
    } else {
      ClearBehaves(w, p, a);
      SameKeepsLedgers(w, ClearStep(w, p, a).world);
    }
  }

  lemma WorkLedgers(w: World, p: Process, a: Action)
    requires Run(w, p) && CanWork(w, p, a) && Ledgers(w)
    ensures Ledgers(WorkStep(w, p, a).world)
  {
    hide Ledgers, WellFormed;
    if a.UnlinkCommitted? {
      DropsCommitted(w, p.tidied);
    } else {
      WorkBehaves(w, p, a);
      SameKeepsLedgers(w, WorkStep(w, p, a).world);
    }
  }

  lemma DispatchLedgers(w: World, p: Process, a: Action)
    requires Run(w, p) && p.Dispatching? && CanDispatch(w, p, a) && Ledgers(w)
    ensures Ledgers(DispatchStep(w, p, a).world)
  {
    hide Ledgers, WellFormed;
    DispatchBehaves(w, p, a);
    SameKeepsLedgers(w, DispatchStep(w, p, a).world);
  }

  // ----- what a step leaves true of the remote calls

  /** Nobody but a dispatcher touches calls and records; others may drop barred records. */
  lemma KeepsDispatched(w: World, v: World)
    requires Grows(w, v) && Dispatched(w)
    requires v.calls == w.calls && v.transcripts == w.transcripts
    requires forall k | k in w.dispatches && k !in v.dispatches :: k in v.barriers
    requires forall k | k in v.dispatches :: k in w.dispatches && v.dispatches[k] == w.dispatches[k]
    ensures Dispatched(v)
  {
  }

  lemma DispatchIsBarred(w: World, c: Committed)
    requires Recorded(w, c) && c.prepared.Dispatch().Some?
    ensures c.prepared.Dispatch().value in w.barriers
  {
    BarriersCover(c.prepared);
  }

  ghost predicate SameDispatches(w: World, v: World)
  {
    v.dispatches == w.dispatches && v.calls == w.calls && v.transcripts == w.transcripts
  }

  lemma CommitDispatched(w: World, p: Process, a: Action)
    requires p.Committing? && CanCommit(w, p, a) && Dispatched(w)
    ensures Dispatched(CommitStep(w, p, a).world)
  {
    CommitBehaves(w, p, a);
    assert SameDispatches(w, CommitStep(w, p, a).world);
    hide CommitStep, CanCommit, ControllerLocks;
    KeepsDispatched(w, CommitStep(w, p, a).world);
  }

  lemma ConsumeDispatched(w: World, p: Process, a: Action)
    requires p.Consuming? && CanConsume(w, p, a) && Dispatched(w)
    ensures Dispatched(ConsumeStep(w, p, a).world)
  {
    ConsumeBehaves(w, p, a);
    assert SameDispatches(w, ConsumeStep(w, p, a).world);
    hide ConsumeStep, CanConsume, AgentLocks;
    KeepsDispatched(w, ConsumeStep(w, p, a).world);
  }

  lemma WorkDispatched(w: World, p: Process, a: Action)
    requires CanWork(w, p, a) && WorkRun(w, p) && Dispatched(w)
    ensures Dispatched(WorkStep(w, p, a).world)
  {
    WorkBehaves(w, p, a);
    assert SameDispatches(w, WorkStep(w, p, a).world);
    hide WorkStep, CanWork, WorkRun, ControllerLocks, AgentLocks;
    KeepsDispatched(w, WorkStep(w, p, a).world);
  }

  lemma DeletingDispatches(w: World, p: Process, a: Action)
    requires p.Clearing? && CanClear(w, p, a)
    ensures var v := ClearStep(w, p, a).world;
      && v.calls == w.calls && v.transcripts == w.transcripts
      && (forall k | k in w.dispatches && k !in v.dispatches :: p.record.prepared.Dispatch() == Some(k))
      && (forall k | k in v.dispatches :: k in w.dispatches && v.dispatches[k] == w.dispatches[k])
  {
  }

  lemma ClearDispatched(w: World, p: Process, a: Action)
    requires Run(w, p) && p.Clearing? && CanClear(w, p, a) && Dispatched(w)
    ensures Dispatched(ClearStep(w, p, a).world)
  {
    ClearBehaves(w, p, a);
    DeletingDispatches(w, p, a);
    if p.record.prepared.Dispatch().Some? { DispatchIsBarred(w, p.record); }
    hide ClearStep, CanClear, RetentionRun, WorkRun, Dispatched, ControllerLocks, AgentLocks;
    KeepsDispatched(w, ClearStep(w, p, a).world);
  }

  lemma CallDispatched(w: World, call: Call)
    requires Dispatched(w) && !Called(w, call.key) && call.key in w.dispatches && w.dispatches[call.key].Intent?
    ensures Dispatched(w.(calls := w.calls + [call]))
  {
    forall i | 0 <= i < |w.calls| ensures w.calls[i].key != call.key {
      if w.calls[i].key == call.key { assert Called(w, call.key); }
    }
  }

  lemma RecordDispatched(w: World, k: Digest, d: Dispatch)
    requires Dispatched(w) && (d.Sent? ==> Call(k, d.request, Replied(d.command)) in w.calls)
    ensures Dispatched(w.(dispatches := w.dispatches[k := d]))
  {
  }

  lemma DispatchDispatched(w: World, p: Process, a: Action)
    requires Run(w, p) && p.Dispatching? && CanDispatch(w, p, a) && Dispatched(w)
    ensures Dispatched(DispatchStep(w, p, a).world)
  {
    match p.stage
    case Reading =>
      if a.LinkIntent? { RecordDispatched(w, p.key, Intent(p.request)); }
    case Linked => CallDispatched(w, Call(p.key, p.request, a.reply));
    case Answered(command) => RecordDispatched(w, p.key, Sent(p.request, command));
    case Waiting(_) =>
  }
}
