/** The retention protocol over whole runs: ordering, no resurrection, one dispatch per key. */
module RetentionTheorems {
  import opened Options
  import opened Tombstones
  import opened Retention
  import opened RetentionSafety

  // ----- one step

  lemma StepBehaves(w: World, p: Process, a: Action)
    requires Run(w, p) && CanStep(w, p, a)
    ensures Behaves(w, Step(w, p, a).world, p)
  {
    hide Behaves, WorkRun;
    match p
    case Committing(_, _) => CommitBehaves(w, p, a);
    case Consuming(_, _) => ConsumeBehaves(w, p, a);
    case Clearing(_, _, _) => ClearBehaves(w, p, a);
    case Dispatching(_, _, _) => DispatchBehaves(w, p, a);
    case _ => WorkBehaves(w, p, a);
  }

  lemma StepContinues(w: World, p: Process, a: Action)
    requires Run(w, p) && CanStep(w, p, a) && Dispatched(w)
    ensures Continues(Step(w, p, a), p)
  {
    hide Continues, Run, Dispatched;
    match p
    case Committing(_, _) => CommitContinues(w, p, a);
    case Consuming(_, _) => ConsumeContinues(w, p, a);
    case Clearing(_, _, _) => ClearContinues(w, p, a);
    case Dispatching(_, _, _) => DispatchContinues(w, p, a);
    case _ => WorkContinues(w, p, a);
  }

  lemma StepLedgers(w: World, p: Process, a: Action)
    requires Run(w, p) && CanStep(w, p, a) && Ledgers(w)
    ensures Ledgers(Step(w, p, a).world)
  {
    hide Ledgers, Run;
    match p
    case Committing(_, _) => CommitLedgers(w, p, a);
    case Consuming(_, _) => ConsumeLedgers(w, p, a);
    case Clearing(_, _, _) => ClearLedgers(w, p, a);
    case Dispatching(_, _, _) => DispatchLedgers(w, p, a);
    case _ => WorkLedgers(w, p, a);
  }

  lemma StepDispatched(w: World, p: Process, a: Action)
    requires Run(w, p) && CanStep(w, p, a) && Dispatched(w)
    ensures Dispatched(Step(w, p, a).world)
  {
    hide Dispatched;
    match p
    case Committing(_, _) => CommitDispatched(w, p, a);
    case Consuming(_, _) => ConsumeDispatched(w, p, a);
    case Clearing(_, _, _) => ClearDispatched(w, p, a);
    case Dispatching(_, _, _) => DispatchDispatched(w, p, a);
    case _ => WorkDispatched(w, p, a);
  }

  lemma ResumeKeepsRuns(s: State, pid: Pid, p: Process, m: Moved)
    requires Inv(s) && pid in s.processes && s.processes[pid] == p
    requires Behaves(s.world, m.world, p) && Continues(m, p)
    ensures forall q | q in Resumed(s, pid, m).processes :: Run(m.world, Resumed(s, pid, m).processes[q])
    ensures LocksExclude(Resumed(s, pid, m))
  {
    hide RetentionRun, WorkRun, Behaves, Grows, Heeds, Confined, Ledgers, ControllerLedgers, AgentLedgers, Dispatched;
    hide ControllerLocks, AgentLocks;
    var t := Resumed(s, pid, m);
    forall q | q in t.processes ensures Run(m.world, t.processes[q]) {
      if q != pid { OthersRun(s.world, m.world, p, s.processes[q]); }
    }
  }

  lemma OthersRun(w: World, v: World, p: Process, q: Process)
    requires Behaves(w, v, p) && RetentionRun(w, q) && WorkRun(w, q)
    requires ControllerLocks(p) !! ControllerLocks(q) && AgentLocks(p) !! AgentLocks(q)
    ensures Run(v, q)
  {
    KeepsRetentionRun(w, v, q);
    KeepsWorkRun(w, v, p, q);
  }

  lemma ResumeKeepsInv(s: State, pid: Pid, a: Action)
    requires Inv(s) && pid in s.processes && CanStep(s.world, s.processes[pid], a)
    ensures Inv(Resumed(s, pid, Step(s.world, s.processes[pid], a)))
  {
    var p := s.processes[pid];
    StepBehaves(s.world, p, a);
    StepContinues(s.world, p, a);
    StepLedgers(s.world, p, a);
    StepDispatched(s.world, p, a);
    hide Step, CanStep, RetentionRun, WorkRun, ControllerLedgers;
    hide AgentLedgers, Dispatched, LocksExclude, Behaves, Continues;
    ResumeKeepsRuns(s, pid, p, Step(s.world, p, a));
  }

  lemma TickKeepsInv(s: State, moment: nat)
    requires Inv(s) && s.world.clock <= moment
    ensures Inv(s.(world := s.world.(clock := moment)))
  {
    var v := s.world.(clock := moment);
    assert Ledgers(v) by { SameKeepsLedgers(s.world, v); }
    forall q | q in s.processes ensures Run(v, s.processes[q]) {
      KeepsRetentionRun(s.world, v, s.processes[q]);
    }
  }

  lemma BeginKeepsInv(s: State, a: Action)
    requires Inv(s) && Begins(a) && CanBegin(s, a)
    ensures Inv(s.(processes := s.processes[a.pid := Begun(s.world, a)]))
  {
    BegunRuns(s.world, a);
    hide MayBegin, Begun, RetentionRun, WorkRun;
    hide ControllerLedgers, AgentLedgers, Dispatched, ControllerLocks, AgentLocks;
  }

  lemma BegunRuns(w: World, a: Action)
    requires Begins(a) && MayBegin(w, a) && Ledgers(w)
    ensures Run(w, Begun(w, a))
  {
    hide WellFormed;
  }

  /** Every step of every run keeps the invariant, and undoes nothing. */
  lemma NextKeepsInv(s: State, a: Action)
    requires Inv(s)
    ensures Inv(Next(s, a))
    ensures Grows(s.world, Next(s, a).world) && Heeds(s.world, Next(s, a).world)
  {
    if a.Tick? {
      if s.world.clock <= a.moment { TickKeepsInv(s, a.moment); }
    } else if Begins(a) {
      if CanBegin(s, a) { BeginKeepsInv(s, a); }
    } else if a.pid in s.processes && !a.Stop? && CanStep(s.world, s.processes[a.pid], a) {
      StepBehaves(s.world, s.processes[a.pid], a);
      hide Step, CanStep, RetentionRun, WorkRun, Dispatched, LocksExclude, ControllerLedgers, AgentLedgers;
      hide Grows, Heeds;
      ResumeKeepsInv(s, a.pid, a);
    }
  }

  lemma {:induction false} AfterKeepsInv(s: State, run: seq<Action>)
    requires Inv(s)
    ensures Inv(After(s, run))
    decreases |run|
  {
    if run != [] {
      NextKeepsInv(s, run[0]);
      AfterKeepsInv(Next(s, run[0]), run[1..]);
    }
  }

  lemma InitialInv(s: State)
    requires Initial(s)
    ensures Inv(s)
  {
  }

  // ----- the ordering of the protocol, in every reachable state

  /**
   Whatever is interleaved: a committed record has all its controller barriers with the same bytes;
   an acknowledgement has its intent and its agent barriers and nothing of the agent's is left; a
   receipt has its acknowledgement and neither a job nor the dispatch record is left.
   */
  lemma {:induction false} OrderingHolds(initial: State, run: seq<Action>)
    requires Initial(initial)
    ensures var w := After(initial, run).world;
      && (forall t, j | t in w.committed && j in t.Barriers() ::
            j in w.barriers && w.barriers[j] == Committed(t, w.committed[t]))
      && (forall t | t in w.acks :: t in w.intents && w.intents[t] == Committed(t, w.acks[t].committedAt))
      && (forall t, j | t in w.acks && j in t.Barriers() ::
            j in w.agentBarriers && w.agentBarriers[j] == Committed(t, w.acks[t].committedAt))
      && (forall t, j | t in w.acks && j in t.Jobs() :: j !in w.workspaces && j !in w.trash && j !in w.results)
      && (forall t | t in w.receipts :: t in w.acks && w.acks[t] == w.receipts[t])
      && (forall t, j | t in w.receipts && j in t.Jobs() :: j !in w.jobs)
      && (forall t | t in w.receipts && t.Dispatch().Some? :: t.Dispatch().value !in w.dispatches)
  {
    InitialInv(initial);
    AfterKeepsInv(initial, run);
    var w := After(initial, run).world;
    forall t, j | t in w.committed && j in t.Barriers()
      ensures j in w.barriers && w.barriers[j] == Committed(t, w.committed[t])
    {
      assert Recorded(w, Committed(t, w.committed[t]));
    }
    forall t, j | t in w.acks && j in t.Barriers()
      ensures j in w.agentBarriers && w.agentBarriers[j] == Committed(t, w.acks[t].committedAt)
    {
      assert Acknowledged(w, t, w.acks[t]);
    }
    forall t, j | t in w.acks && j in t.Jobs() ensures j !in w.workspaces && j !in w.trash && j !in w.results {
      assert Acknowledged(w, t, w.acks[t]);
    }
    forall t, j | t in w.receipts && j in t.Jobs() ensures j !in w.jobs {
      assert Removed(w, t);
    }
  }

  ghost predicate DeletesNothing(w: World, v: World)
  {
    && (forall j | j in w.jobs :: j in v.jobs)
    && (forall k | k in w.dispatches :: k in v.dispatches)
    && w.results <= v.results && w.workspaces <= v.workspaces && w.trash <= v.trash
    && w.bundles <= v.bundles
  }

  /** A run of the agent that has published its intent. */
  predicate Intends(p: Process)
  {
    p.Consuming? && !p.consumed.Barring?
  }

  /** Which run a deletion belongs to. */
  lemma StepDeletes(w: World, p: Process, a: Action)
    requires CanStep(w, p, a)
    ensures var v := Step(w, p, a).world;
      && (forall j | j in w.jobs && j !in v.jobs :: p.Clearing? && j in p.record.prepared.Jobs())
      && (forall k | k in w.dispatches && k !in v.dispatches :: p.Clearing? && p.record.prepared.Dispatch() == Some(k))
      && (forall j | j in w.results && j !in v.results :: Intends(p) && j in p.record.prepared.Jobs())
      && (forall j | j in w.workspaces && j !in v.workspaces ::
            (Intends(p) && j in p.record.prepared.Jobs()) || p == Executing(j))
      && (forall j | j in w.trash && j !in v.trash :: Intends(p) && j in p.record.prepared.Jobs())
      && (forall b | b in w.bundles && b !in v.bundles :: Intends(p) && p.record.prepared.target == Evidence(b))
  {
    hide CommitStep, ConsumeStep, ClearStep, DispatchStep, WorkStep;
    match p
    case Committing(_, _) => CommitDeletes(w, p, a);
    case Consuming(_, _) => ConsumeDeletes(w, p, a);
    case Clearing(_, _, _) => ClearDeletes(w, p, a);
    case Dispatching(_, _, _) => DispatchDeletes(w, p, a);
    case _ => WorkDeletes(w, p, a);
  }

  lemma CommitDeletes(w: World, p: Process, a: Action)
    requires p.Committing? && CanCommit(w, p, a)
    ensures DeletesNothing(w, CommitStep(w, p, a).world)
  {
  }

  lemma DispatchDeletes(w: World, p: Process, a: Action)
    requires p.Dispatching? && CanDispatch(w, p, a)
    ensures DeletesNothing(w, DispatchStep(w, p, a).world)
  {
  }

  lemma WorkDeletes(w: World, p: Process, a: Action)
    requires CanWork(w, p, a)
    ensures var v := WorkStep(w, p, a).world;
      && v.dispatches == w.dispatches && w.results <= v.results && v.trash == w.trash && w.bundles <= v.bundles
      && (forall j | j in w.jobs :: j in v.jobs)
      && (forall j | j in w.workspaces && j !in v.workspaces :: p == Executing(j))
  {
  }

  lemma ConsumeDeletes(w: World, p: Process, a: Action)
    requires p.Consuming? && CanConsume(w, p, a)
    ensures var v := ConsumeStep(w, p, a).world;
      && v.jobs == w.jobs && v.dispatches == w.dispatches
      && (forall j | j in w.results && j !in v.results :: Intends(p) && j in p.record.prepared.Jobs())
      && (forall j | j in w.workspaces && j !in v.workspaces :: Intends(p) && j in p.record.prepared.Jobs())
      && (forall j | j in w.trash && j !in v.trash :: Intends(p) && j in p.record.prepared.Jobs())
      && (forall b | b in w.bundles && b !in v.bundles :: Intends(p) && p.record.prepared.target == Evidence(b))
  {
  }

  lemma ClearDeletes(w: World, p: Process, a: Action)
    requires p.Clearing? && CanClear(w, p, a)
    ensures var v := ClearStep(w, p, a).world;
      && v.results == w.results && v.workspaces == w.workspaces && v.trash == w.trash && v.bundles == w.bundles
      && (forall j | j in w.jobs && j !in v.jobs :: j in p.record.prepared.Jobs())
      && (forall k | k in w.dispatches && k !in v.dispatches :: p.record.prepared.Dispatch() == Some(k))
  {
    DeletingDispatches(w, p, a);
    if a.DeleteJob? {
      var j := p.record.prepared.Jobs()[p.cleared.job];
      assert ClearStep(w, p, a).world.jobs == w.jobs - {j};
    }
  }

  predicate Moves(s: State, a: Action)
  {
    && !a.Tick? && !Begins(a) && a.pid in s.processes && !a.Stop?
    && CanStep(s.world, s.processes[a.pid], a)
  }

  ghost predicate AckedAndDue(w: World, t: Tombstone)
  {
    t in w.acks && t.eligibleAt <= w.clock
  }

  lemma RunKnows(w: World, p: Process)
    requires RetentionRun(w, p)
    ensures Intends(p) ==> IntendedAndDue(w, p.record.prepared)
    ensures p.Clearing? ==> AckedAndDue(w, p.record.prepared)
  {
  }

  lemma StillnessDeletesNothing(s: State, a: Action)
    requires !Moves(s, a)
    ensures DeletesNothing(s.world, Next(s, a).world)
  {
  }

  /** A job or a dispatch record goes away only under an acknowledgement, at or after the eligible time. */
  lemma ControllerDeletesAfterAck(s: State, a: Action)
    requires Inv(s)
    ensures forall j | j in s.world.jobs && j !in Next(s, a).world.jobs ::
      exists t :: AckedAndDue(s.world, t) && j in t.Jobs()
    ensures forall k | k in s.world.dispatches && k !in Next(s, a).world.dispatches ::
      exists t :: AckedAndDue(s.world, t) && t.Dispatch() == Some(k)
  {
    if Moves(s, a) {
      var p := s.processes[a.pid];
      StepDeletes(s.world, p, a);
      RunKnows(s.world, p);
    } else {
      StillnessDeletesNothing(s, a);
    }
    hide Step, CanStep, RetentionRun, WorkRun, ControllerLedgers, AgentLedgers, Dispatched, LocksExclude, AckedAndDue;
  }

  ghost predicate IntendedAndDue(w: World, t: Tombstone)
  {
    t in w.intents && t.eligibleAt <= w.clock
  }

  /** The run whose step this is executes the job, under its lock, and the job has no barrier. */
  ghost predicate ResetsUnbarred(s: State, a: Action, j: Digest)
  {
    a.ResetWorkspace? && a.pid in s.processes && s.processes[a.pid] == Executing(j) && j !in s.world.agentBarriers
  }

  /**
   A result, a bundle or what is in the trash goes away only under an intent for it, at or after the
   eligible time.
   */
  lemma AgentDeletesAfterIntent(s: State, a: Action)
    requires Inv(s)
    ensures forall j | j in s.world.results && j !in Next(s, a).world.results ::
      exists t :: IntendedAndDue(s.world, t) && j in t.Jobs()
    ensures forall j | j in s.world.trash && j !in Next(s, a).world.trash ::
      exists t :: IntendedAndDue(s.world, t) && j in t.Jobs()
    ensures forall b | b in s.world.bundles && b !in Next(s, a).world.bundles ::
      exists t :: IntendedAndDue(s.world, t) && t.target == Evidence(b)
  {
    if Moves(s, a) {
      var p := s.processes[a.pid];
      StepDeletes(s.world, p, a);
      RunKnows(s.world, p);
    } else {
      StillnessDeletesNothing(s, a);
    }
    hide Step, CanStep, RetentionRun, WorkRun, ControllerLedgers, AgentLedgers, Dispatched, LocksExclude;
    hide Intends, IntendedAndDue;
  }

  /** So does a workspace, except that the executor of a job without a barrier starts it afresh. */
  lemma WorkspacesGoForAReason(s: State, a: Action)
    requires Inv(s)
    ensures forall j | j in s.world.workspaces && j !in Next(s, a).world.workspaces ::
      (exists t :: IntendedAndDue(s.world, t) && j in t.Jobs()) || ResetsUnbarred(s, a, j)
  {
    if Moves(s, a) {
      var p := s.processes[a.pid];
      StepDeletes(s.world, p, a);
      RunKnows(s.world, p);
      assert WorkRun(s.world, p);
      forall j | p == Executing(j) && j in s.world.workspaces && j !in Next(s, a).world.workspaces
        ensures ResetsUnbarred(s, a, j)
      {
        ExecutorResets(s.world, j, a);
      }
    } else {
      StillnessDeletesNothing(s, a);
    }
    hide Step, CanStep, RetentionRun, WorkRun, ControllerLedgers, AgentLedgers, Dispatched, LocksExclude;
    hide Intends, IntendedAndDue, ResetsUnbarred;
  }

  lemma ExecutorResets(w: World, j: Digest, a: Action)
    requires CanStep(w, Executing(j), a) && j in w.workspaces && j !in Step(w, Executing(j), a).world.workspaces
    ensures a.ResetWorkspace?
  {
  }

  // ----- no resurrection

  /**
   Once a barrier is there it stays, with its bytes, and whatever follows it creates no job
   directory, workspace or result for its job that is not there already; nothing that is gone comes back.
   */
  lemma {:induction false} NoResurrection(s: State, run: seq<Action>)
    requires Inv(s)
    ensures var w, v := s.world, After(s, run).world;
      && Extends(w.barriers, v.barriers) && Extends(w.agentBarriers, v.agentBarriers)
      && Heeds(w, v)
    decreases |run|
  {
    if run != [] {
      NextKeepsInv(s, run[0]);
      NoResurrection(Next(s, run[0]), run[1..]);
    }
  }

  /** In particular, a completed and cleaned tombstone keeps its jobs, workspaces and results away for ever. */
  lemma {:induction false} CompletedStaysAway(s: State, run: seq<Action>, t: Tombstone)
    requires Inv(s) && t in s.world.receipts
    ensures var v := After(s, run).world;
      forall j | j in t.Jobs() :: j !in v.jobs && j !in v.workspaces && j !in v.trash && j !in v.results
    ensures t.Dispatch().Some? ==> t.Dispatch().value !in After(s, run).world.dispatches
  {
    AfterKeepsInv(s, run);
    ReceiptsStay(s, run);
    var v := After(s, run).world;
    assert Removed(v, t) && Acknowledged(v, t, v.acks[t]);
  }

  lemma {:induction false} ReceiptsStay(s: State, run: seq<Action>)
    requires Inv(s)
    ensures Extends(s.world.receipts, After(s, run).world.receipts)
    decreases |run|
  {
    if run != [] {
      NextKeepsInv(s, run[0]);
      ReceiptsStay(Next(s, run[0]), run[1..]);
    }
  }

  // ----- one dispatch per execution key

  /**
   Over a whole run the remote command service is called at most once per execution key, and every
   transcript handed back is that of the command which the one call for its key returned.
   */
  lemma {:induction false} DispatchedAtMostOnce(initial: State, run: seq<Action>)
    requires Initial(initial)
    ensures var w := After(initial, run).world;
      && (forall i, j | 0 <= i < j < |w.calls| :: w.calls[i].key != w.calls[j].key)
      && (forall x | x in w.transcripts :: Call(x.key, x.request, Replied(x.command)) in w.calls)
      && (forall k | k in w.dispatches && w.dispatches[k].Sent? ::
            Call(k, w.dispatches[k].request, Replied(w.dispatches[k].command)) in w.calls)
  {
    InitialInv(initial);
    AfterKeepsInv(initial, run);
  }

  // ----- a partly deleted job

  /** A job tree that a crash left partly deleted stops every later clearing of its tombstone. */
  lemma PartialJobRefused(s: State, pid: Pid, c: Committed, j: Digest)
    requires j in c.prepared.Jobs() && j in s.world.jobs && s.world.jobs[j] == Partial
    ensures Next(s, ClearBegin(pid, c)) == s
  {
  }
}
