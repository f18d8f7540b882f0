/**
 The two-party retention protocol with everybody it has to keep out: any number of controller
 and agent retention runs, job publishers, job executors and lab dispatchers, interleaved step by
 step, each of which a crash or a refusal can end at any point.  A publication of one metadata
 record is one step here; between its micro-steps the final name is absent or exact, and a later
 attempt that does not get over them is a run that ends.
 */
module Retention {
  import opened Options
  import opened Tombstones

  type Pid = nat

  type Command = nat

  /** A job directory is whole until its recursive deletion starts. */
  datatype Tree = Whole | Partial

  /** The command identifier that the remote service returned, if a readable one came back. */
  datatype Reply = Lost | Replied(command: Command)

  /** The durable record of a lab dispatch; `request` is the handle, the plan and the commands. */
  datatype Dispatch = Intent(request: Digest) | Sent(request: Digest, command: Command)

  /** One invocation of the remote command service. */
  datatype Call = Call(key: Digest, request: Digest, reply: Reply)

  /** What the broker hands back after waiting for a recorded command. */
  datatype Transcript = Transcript(key: Digest, request: Digest, command: Command)

  datatype DispatchStage = Reading | Linked | Answered(command: Command) | Waiting(command: Command)

  datatype ConsumeStage = Barring(next: nat) | Emptying(job: nat) | Unlinking(result: nat) | Acknowledging

  datatype ClearStage = Marking | Deleting(job: nat) | Receipting | Cleaning

  /** A run that is past its checks, holding its locks. */
  datatype Process =
    | Committing(record: Committed, next: nat)
    | Consuming(record: Committed, consumed: ConsumeStage)
    | Clearing(record: Committed, ack: Ack, cleared: ClearStage)
    | Tidying(tidied: Tombstone)
    | Publishing(job: Digest)
    | Executing(job: Digest)
    | Dispatching(key: Digest, request: Digest, stage: DispatchStage)

  datatype World = World(
    clock: nat,
    committed: map<Tombstone, nat>,
    history: set<Committed>,
    barriers: map<Digest, Committed>,
    agentBarriers: map<Digest, Committed>,
    intents: map<Tombstone, Committed>,
    acks: map<Tombstone, Ack>,
    markers: set<Tombstone>,
    receipts: map<Tombstone, Ack>,
    jobs: map<Digest, Tree>,
    dispatches: map<Digest, Dispatch>,
    workspaces: set<Digest>,
    trash: set<Digest>,
    results: set<Digest>,
    bundles: set<Digest>,
    calls: seq<Call>,
    transcripts: set<Transcript>)

  datatype State = State(world: World, processes: map<Pid, Process>)

  /** A step leaves a world and a run, unless the run has come to its end. */
  datatype Moved = Moved(world: World, next: Option<Process>)

  function ControllerLocks(p: Process): set<Digest>
  {
    match p
    case Committing(c, _) => set j | j in c.prepared.Barriers()
    case Clearing(c, _, _) => set j | j in c.prepared.Barriers()
    case Publishing(j) => {j}
    case Dispatching(k, _, _) => {k}
    case _ => {}
  }

  function AgentLocks(p: Process): set<Digest>
  {
    match p
    case Consuming(c, _) => set j | j in c.prepared.Barriers()
    case Executing(j) => {j}
    case _ => {}
  }

  datatype Action =
    | Tick(moment: nat)
    | Stop(pid: Pid)
    | CommitBegin(pid: Pid, record: Committed)
    | CommitBarrier(pid: Pid)
    | CommitRecord(pid: Pid)
    | ConsumeBegin(pid: Pid, record: Committed)
    | ConsumeBarrier(pid: Pid)
    | ConsumeIntent(pid: Pid)
    | MoveWorkspace(pid: Pid)
    | RemoveTrash(pid: Pid)
    | UnlinkResult(pid: Pid)
    | UnlinkBundle(pid: Pid)
    | Acknowledge(pid: Pid, at: nat)
    | ClearBegin(pid: Pid, record: Committed)
    | Mark(pid: Pid)
    | DeleteJobPart(pid: Pid)
    | DeleteJob(pid: Pid)
    | DeleteDispatch(pid: Pid)
    | PublishReceipt(pid: Pid)
    | UnlinkCommitted(pid: Pid)
    | UnlinkMarker(pid: Pid)
    | TidyBegin(pid: Pid, tombstone: Tombstone)
    | PublishBegin(pid: Pid, job: Digest)
    | PublishJob(pid: Pid)
    | ExecuteBegin(pid: Pid, job: Digest)
    | ResetWorkspace(pid: Pid)
    | MakeWorkspace(pid: Pid)
    | PublishResult(pid: Pid)
    | PublishBundle(pid: Pid, bundle: Digest)
    | DispatchBegin(pid: Pid, key: Digest, request: Digest)
    | LinkIntent(pid: Pid)
    | ResumeDispatch(pid: Pid)
    | Send(pid: Pid, reply: Reply)
    | RecordCommand(pid: Pid)
    | Wait(pid: Pid)

  predicate Begins(a: Action)
  {
    || a.CommitBegin? || a.ConsumeBegin? || a.ClearBegin? || a.TidyBegin?
    || a.PublishBegin? || a.ExecuteBegin? || a.DispatchBegin?
  }

  /** Every lock that the new run needs has been let go by all the others. */
  predicate Free(processes: map<Pid, Process>, p: Process)
  {
    forall q | q in processes ::
      ControllerLocks(processes[q]) !! ControllerLocks(p) && AgentLocks(processes[q]) !! AgentLocks(p)
  }

  /**
   A run reads its record before it waits for its locks, so the record may have left the committed
   ledger in the meantime; what it checks once it holds the locks is what counts.
   */
  predicate MayBegin(w: World, a: Action)
    requires Begins(a)
  {
    match a
    case CommitBegin(_, c) => WellFormed(c.prepared) && c.prepared.eligibleAt <= c.at <= w.clock
    case ConsumeBegin(_, c) =>
      && c in w.history
      && c.at <= w.clock && c.prepared.eligibleAt <= w.clock
      && (forall j | j in c.prepared.Barriers() :: j in w.barriers && w.barriers[j] == c)
      && Accepts(w.intents, c.prepared, c)
    case ClearBegin(_, c) =>
      && c in w.history
      && c.prepared in w.acks && w.acks[c.prepared].committedAt == c.at
      && (forall j | j in c.prepared.Jobs() :: if j in w.jobs then w.jobs[j] == Whole else c.prepared in w.markers)
      && (c.prepared.Dispatch().Some? && c.prepared !in w.markers ==> c.prepared.Dispatch().value in w.dispatches)
    case TidyBegin(_, t) => t in w.receipts
    case PublishBegin(_, j) => j !in w.barriers
    case ExecuteBegin(_, j) => j !in w.agentBarriers
    case DispatchBegin(_, k, _) => k !in w.barriers
  }

  function Begun(w: World, a: Action): Process
    requires Begins(a) && MayBegin(w, a)
  {
    match a
    case CommitBegin(_, c) => Committing(c, 0)
    case ConsumeBegin(_, c) => Consuming(c, Barring(0))
    case ClearBegin(_, c) =>
      Clearing(c, w.acks[c.prepared],
               if c.prepared.target.Evidence? then Receipting
               else if c.prepared in w.markers then Deleting(0) else Marking)
    case TidyBegin(_, t) => Tidying(t)
    case PublishBegin(_, j) => Publishing(j)
    case ExecuteBegin(_, j) => Executing(j)
    case DispatchBegin(_, k, r) => Dispatching(k, r, Reading)
  }

  predicate CanBegin(s: State, a: Action)
    requires Begins(a)
  {
    a.pid !in s.processes && MayBegin(s.world, a) && Free(s.processes, Begun(s.world, a))
  }

  /** Immutable publication: an occupied name accepts the same bytes only. */
  predicate Accepts<K, V(==)>(ledger: map<K, V>, key: K, value: V)
  {
    key in ledger ==> ledger[key] == value
  }

  // ----- the controller publishes barriers, then the committed record

  predicate CanCommit(w: World, p: Process, a: Action)
    requires p.Committing?
  {
    var barriers := p.record.prepared.Barriers();
    match a
    case CommitBarrier(_) => p.next < |barriers| && Accepts(w.barriers, barriers[p.next], p.record)
    case CommitRecord(_) => p.next == |barriers| && Accepts(w.committed, p.record.prepared, p.record.at)
    case _ => false
  }

  function CommitStep(w: World, p: Process, a: Action): Moved
    requires p.Committing? && CanCommit(w, p, a)
  {
    if a.CommitBarrier? then
      Moved(w.(barriers := w.barriers[p.record.prepared.Barriers()[p.next] := p.record]), Some(p.(next := p.next + 1)))
    else
      Moved(w.(committed := w.committed[p.record.prepared := p.record.at], history := w.history + {p.record}), None)
  }

  // ----- the agent publishes its barriers and its intent, empties workspaces, unlinks results and bundle

  predicate CanConsume(w: World, p: Process, a: Action)
    requires p.Consuming?
  {
    var barriers, jobs := p.record.prepared.Barriers(), p.record.prepared.Jobs();
    match p.consumed
    case Barring(n) =>
      || (a.ConsumeBarrier? && n < |barriers| && Accepts(w.agentBarriers, barriers[n], p.record))
      || (a.ConsumeIntent? && n == |barriers| && Accepts(w.intents, p.record.prepared, p.record))
    case Emptying(n) =>
      || (a.MoveWorkspace? && n < |jobs| && jobs[n] in w.workspaces && jobs[n] !in w.trash)
      || (a.RemoveTrash? && n < |jobs| && jobs[n] !in w.workspaces)
    case Unlinking(n) =>
      || (a.UnlinkResult? && n < |jobs|)
      || (a.UnlinkBundle? && n == |jobs|)
    case Acknowledging =>
      a.Acknowledge? && p.record.at <= a.at && Accepts(w.acks, p.record.prepared, Ack(p.record.at, a.at))
  }

  function ConsumeStep(w: World, p: Process, a: Action): Moved
    requires p.Consuming? && CanConsume(w, p, a)
  {
    match p.consumed
    case Barring(n) => BarringStep(w, p, n, a)
    case Emptying(n) =>
      var jobs := p.record.prepared.Jobs();
      if a.MoveWorkspace? then
        Moved(w.(workspaces := w.workspaces - {jobs[n]}, trash := w.trash + {jobs[n]}), Some(p))
      else
        Moved(w.(trash := w.trash - {jobs[n]}),
              Some(p.(consumed := if n + 1 < |jobs| then Emptying(n + 1) else Unlinking(0))))
    case Unlinking(n) => UnlinkingStep(w, p, n, a)
    case Acknowledging => Moved(w.(acks := w.acks[p.record.prepared := Ack(p.record.at, a.at)]), None)
  }

  function BarringStep(w: World, p: Process, n: nat, a: Action): Moved
    requires p.Consuming? && p.consumed == Barring(n) && CanConsume(w, p, a)
  {
    var t := p.record.prepared;
    if a.ConsumeBarrier? then
      Moved(w.(agentBarriers := w.agentBarriers[t.Barriers()[n] := p.record]), Some(p.(consumed := Barring(n + 1))))
    else
      Moved(w.(intents := w.intents[t := p.record]),
            Some(p.(consumed := if t.Jobs() == [] then Unlinking(0) else Emptying(0))))
  }

  /** The bundle that a tombstone is for. */
  function Bundles(t: Tombstone): set<Digest>
  {
    if t.target.Evidence? then {t.target.bundle} else {}
  }

  function UnlinkingStep(w: World, p: Process, n: nat, a: Action): Moved
    requires p.Consuming? && p.consumed == Unlinking(n) && CanConsume(w, p, a)
  {
    var t := p.record.prepared;
    if a.UnlinkResult? then
      Moved(w.(results := w.results - {t.Jobs()[n]}), Some(p.(consumed := Unlinking(n + 1))))
    else
      Moved(w.(bundles := w.bundles - Bundles(t)), Some(p.(consumed := Acknowledging)))
  }

  // ----- the controller marks the deletion, deletes jobs, publishes the receipt and cleans up

  predicate CanClear(w: World, p: Process, a: Action)
    requires p.Clearing?
  {
    var jobs := p.record.prepared.Jobs();
    match p.cleared
    case Marking => a.Mark?
    case Deleting(n) =>
      || (a.DeleteJobPart? && n < |jobs| && jobs[n] in w.jobs)
      || (a.DeleteJob? && n < |jobs|)
      || (a.DeleteDispatch? && n == |jobs|)
    case Receipting => a.PublishReceipt? && Accepts(w.receipts, p.record.prepared, p.ack)
    case Cleaning => a.UnlinkCommitted? || a.UnlinkMarker?
  }

  function ClearStep(w: World, p: Process, a: Action): Moved
    requires p.Clearing? && CanClear(w, p, a)
  {
    var t := p.record.prepared;
    match p.cleared
    case Marking => Moved(w.(markers := w.markers + {t}), Some(p.(cleared := Deleting(0))))
    case Deleting(n) => DeletingStep(w, p, n, a)
    case Receipting => Moved(w.(receipts := w.receipts[t := p.ack]), Some(p.(cleared := Cleaning)))
    case Cleaning => Moved(Tidied(w, t, a), Some(p))
  }

  function DeletingStep(w: World, p: Process, n: nat, a: Action): Moved
    requires p.Clearing? && p.cleared == Deleting(n) && CanClear(w, p, a)
  {
    var t := p.record.prepared;
    if a.DeleteJobPart? then
      Moved(w.(jobs := w.jobs[t.Jobs()[n] := Partial]), Some(p))
    else if a.DeleteJob? then
      Moved(w.(jobs := w.jobs - {t.Jobs()[n]}), Some(p.(cleared := Deleting(n + 1))))
    else
      Moved(w.(dispatches := if t.Dispatch().Some? then w.dispatches - {t.Dispatch().value} else w.dispatches),
            Some(p.(cleared := Receipting)))
  }

  function Tidied(w: World, t: Tombstone, a: Action): World
  {
    if a.UnlinkCommitted? then w.(committed := w.committed - {t}) else w.(markers := w.markers - {t})
  }

  // ----- everybody else: job publication, job execution, lab dispatch

  predicate CanWork(w: World, p: Process, a: Action)
  {
    match p
    case Tidying(_) => a.UnlinkCommitted? || a.UnlinkMarker?
    case Publishing(_) => a.PublishJob?
    case Executing(j) =>
      a.ResetWorkspace? || a.MakeWorkspace? || (a.PublishResult? && j !in w.results) || a.PublishBundle?
    case _ => false
  }

  function WorkStep(w: World, p: Process, a: Action): Moved
    requires CanWork(w, p, a)
  {
    match p
    case Tidying(t) => Moved(Tidied(w, t, a), Some(p))
    case Publishing(j) => Moved(w.(jobs := if j in w.jobs then w.jobs else w.jobs[j := Whole]), None)
    case Executing(j) =>
      if a.ResetWorkspace? then Moved(w.(workspaces := w.workspaces - {j}), Some(p))
      else if a.MakeWorkspace? then Moved(w.(workspaces := w.workspaces + {j}), Some(p))
      else if a.PublishBundle? then Moved(w.(bundles := w.bundles + {a.bundle}), Some(p))
      else Moved(w.(results := w.results + {j}), None)
  }

  predicate CanDispatch(w: World, p: Process, a: Action)
    requires p.Dispatching?
  {
    match p.stage
    case Reading =>
      || (a.LinkIntent? && p.key !in w.dispatches)
      || (a.ResumeDispatch? && p.key in w.dispatches
          && w.dispatches[p.key].Sent? && w.dispatches[p.key].request == p.request)
    case Linked => a.Send?
    case Answered(_) => a.RecordCommand? && p.key in w.dispatches && w.dispatches[p.key] == Intent(p.request)
    case Waiting(_) => a.Wait?
  }

  function DispatchStep(w: World, p: Process, a: Action): Moved
    requires p.Dispatching? && CanDispatch(w, p, a)
  {
    match p.stage
    case Reading =>
      if a.LinkIntent? then
        Moved(w.(dispatches := w.dispatches[p.key := Intent(p.request)]), Some(p.(stage := Linked)))
      else
        Moved(w, Some(p.(stage := Waiting(w.dispatches[p.key].command))))
    case Linked =>
      Moved(w.(calls := w.calls + [Call(p.key, p.request, a.reply)]),
            if a.reply.Replied? then Some(p.(stage := Answered(a.reply.command))) else None)
    case Answered(command) =>
      Moved(w.(dispatches := w.dispatches[p.key := Sent(p.request, command)]), Some(p.(stage := Waiting(command))))
    case Waiting(command) =>
      Moved(w.(transcripts := w.transcripts + {Transcript(p.key, p.request, command)}), None)
  }

  /** A step of a run, with the condition without which the run is refused. */
  predicate CanStep(w: World, p: Process, a: Action)
  {
    match p
    case Committing(_, _) => CanCommit(w, p, a)
    case Consuming(_, _) => CanConsume(w, p, a)
    case Clearing(_, _, _) => CanClear(w, p, a)
    case Dispatching(_, _, _) => CanDispatch(w, p, a)
    case _ => CanWork(w, p, a)
  }

  function Step(w: World, p: Process, a: Action): Moved
    requires CanStep(w, p, a)
  {
    match p
    case Committing(_, _) => CommitStep(w, p, a)
    case Consuming(_, _) => ConsumeStep(w, p, a)
    case Clearing(_, _, _) => ClearStep(w, p, a)
    case Dispatching(_, _, _) => DispatchStep(w, p, a)
    case _ => WorkStep(w, p, a)
  }

  function Resumed(s: State, pid: Pid, m: Moved): State
  {
    State(m.world, if m.next.Some? then s.processes[pid := m.next.value] else s.processes - {pid})
  }

  /** An action that is not enabled changes nothing; a crash or a refusal stops a run anywhere. */
  function Next(s: State, a: Action): State
  {
    if a.Tick? then
      if s.world.clock <= a.moment then s.(world := s.world.(clock := a.moment)) else s
    else if Begins(a) then
      if CanBegin(s, a) then s.(processes := s.processes[a.pid := Begun(s.world, a)]) else s
    else if a.pid !in s.processes then s
    else if a.Stop? then s.(processes := s.processes - {a.pid})
    else if CanStep(s.world, s.processes[a.pid], a) then Resumed(s, a.pid, Step(s.world, s.processes[a.pid], a))
    else s
  }

  /** The state after a run. */
  function After(s: State, run: seq<Action>): State
    decreases |run|
  {
    if run == [] then s else After(Next(s, run[0]), run[1..])
  }

  /** Jobs, workspaces, results and bundles may be there; nothing of the protocol is. */
  predicate Initial(s: State)
  {
    var w := s.world;
    && w.committed == map[] && w.history == {} && w.barriers == map[] && w.agentBarriers == map[] && w.intents == map[]
    && w.acks == map[] && w.markers == {} && w.receipts == map[] && w.trash == {}
    && w.dispatches == map[] && w.calls == [] && w.transcripts == {} && s.processes == map[]
  }

  // ----- the invariant

  /** No two runs hold the same lock. */
  ghost predicate LocksExclude(s: State)
  {
    forall p, q | p in s.processes && q in s.processes && p != q ::
      && ControllerLocks(s.processes[p]) !! ControllerLocks(s.processes[q])
      && AgentLocks(s.processes[p]) !! AgentLocks(s.processes[q])
  }

  ghost predicate Barred(ledger: map<Digest, Committed>, c: Committed, n: nat)
    requires n <= |c.prepared.Barriers()|
  {
    forall i | 0 <= i < n :: c.prepared.Barriers()[i] in ledger && ledger[c.prepared.Barriers()[i]] == c
  }

  ghost predicate FullyBarred(ledger: map<Digest, Committed>, c: Committed)
  {
    Barred(ledger, c, |c.prepared.Barriers()|)
  }

  /** Nothing that the agent owns is left of the first `n` jobs, as far as the flags say. */
  ghost predicate Emptied(w: World, t: Tombstone, n: nat)
    requires n <= |t.Jobs()|
  {
    forall i | 0 <= i < n :: t.Jobs()[i] !in w.workspaces && t.Jobs()[i] !in w.trash
  }

  ghost predicate Resultless(w: World, t: Tombstone, n: nat)
    requires n <= |t.Jobs()|
  {
    forall i | 0 <= i < n :: t.Jobs()[i] !in w.results
  }

  ghost predicate Jobless(w: World, t: Tombstone, n: nat)
    requires n <= |t.Jobs()|
  {
    forall i | 0 <= i < n :: t.Jobs()[i] !in w.jobs
  }

  ghost predicate Eligible(w: World, c: Committed)
  {
    WellFormed(c.prepared) && c.prepared.eligibleAt <= c.at <= w.clock
  }

  /** A record that has been committed stands behind all its controller barriers. */
  ghost predicate Recorded(w: World, c: Committed)
  {
    c in w.history && Eligible(w, c) && FullyBarred(w.barriers, c)
  }

  ghost predicate Acknowledged(w: World, t: Tombstone, a: Ack)
  {
    var c := Committed(t, a.committedAt);
    && a.committedAt <= a.at
    && Recorded(w, c)
    && t in w.intents && w.intents[t] == c
    && FullyBarred(w.agentBarriers, c)
    && Emptied(w, t, |t.Jobs()|)
    && Resultless(w, t, |t.Jobs()|)
  }

  ghost predicate Removed(w: World, t: Tombstone)
  {
    Jobless(w, t, |t.Jobs()|) && (t.Dispatch().Some? ==> t.Dispatch().value !in w.dispatches)
  }

  /** What the controller's ledgers imply. */
  ghost predicate ControllerLedgers(w: World)
  {
    && (forall t | t in w.committed :: Committed(t, w.committed[t]) in w.history)
    && (forall c | c in w.history :: Recorded(w, c))
    && (forall t | t in w.receipts :: t in w.acks && w.acks[t] == w.receipts[t] && Removed(w, t))
  }

  ghost predicate AgentLedgers(w: World)
  {
    && (forall t | t in w.intents ::
          w.intents[t].prepared == t && Recorded(w, w.intents[t]) && FullyBarred(w.agentBarriers, w.intents[t]))
    && (forall t | t in w.acks :: Acknowledged(w, t, w.acks[t]))
  }

  /** What a run of the retention protocol knows at each of its stages. */
  ghost predicate RetentionRun(w: World, p: Process)
  {
    match p
    case Committing(c, n) => Eligible(w, c) && n <= |c.prepared.Barriers()| && Barred(w.barriers, c, n)
    case Consuming(c, Barring(n)) => Recorded(w, c) && n <= |c.prepared.Barriers()| && Barred(w.agentBarriers, c, n)
    case Consuming(c, Emptying(n)) => Consumes(w, c) && n <= |c.prepared.Jobs()| && Emptied(w, c.prepared, n)
    case Consuming(c, Unlinking(n)) =>
      && Consumes(w, c) && n <= |c.prepared.Jobs()|
      && Emptied(w, c.prepared, |c.prepared.Jobs()|) && Resultless(w, c.prepared, n)
    case Consuming(c, Acknowledging) =>
      Consumes(w, c) && Emptied(w, c.prepared, |c.prepared.Jobs()|) && Resultless(w, c.prepared, |c.prepared.Jobs()|)
    case Clearing(c, a, stage) =>
      && c.prepared in w.acks && w.acks[c.prepared] == a && a.committedAt == c.at && Recorded(w, c)
      && (stage.Deleting? ==> stage.job <= |c.prepared.Jobs()| && Jobless(w, c.prepared, stage.job))
      && (stage.Receipting? || stage.Cleaning? ==> Removed(w, c.prepared))
    case _ => true
  }

  ghost predicate Consumes(w: World, c: Committed)
  {
    && Recorded(w, c)
    && c.prepared in w.intents && w.intents[c.prepared] == c
    && FullyBarred(w.agentBarriers, c)
  }

  /** What a publisher, an executor or a dispatcher knows once it is past its barrier check. */
  ghost predicate WorkRun(w: World, p: Process)
  {
    match p
    case Publishing(j) => j !in w.barriers
    case Executing(j) => j !in w.agentBarriers
    case Dispatching(k, r, stage) => k !in w.barriers && DispatchRun(w, k, r, stage)
    case _ => true
  }

  ghost predicate Called(w: World, key: Digest)
  {
    exists i :: 0 <= i < |w.calls| && w.calls[i].key == key
  }

  ghost predicate DispatchRun(w: World, k: Digest, r: Digest, stage: DispatchStage)
  {
    match stage
    case Reading => true
    case Linked => k in w.dispatches && w.dispatches[k] == Intent(r) && !Called(w, k)
    case Answered(command) =>
      k in w.dispatches && w.dispatches[k] == Intent(r) && Call(k, r, Replied(command)) in w.calls
    case Waiting(command) => Call(k, r, Replied(command)) in w.calls
  }

  ghost predicate Dispatched(w: World)
  {
    && (forall i | 0 <= i < |w.calls| :: w.calls[i].key in w.dispatches || w.calls[i].key in w.barriers)
    && (forall i, j | 0 <= i < j < |w.calls| :: w.calls[i].key != w.calls[j].key)
    && (forall k | k in w.dispatches && w.dispatches[k].Sent? ::
          Call(k, w.dispatches[k].request, Replied(w.dispatches[k].command)) in w.calls)
    && (forall x | x in w.transcripts :: Call(x.key, x.request, Replied(x.command)) in w.calls)
  }

  ghost predicate Inv(s: State)
  {
    && LocksExclude(s)
    && ControllerLedgers(s.world)
    && AgentLedgers(s.world)
    && (forall p | p in s.processes :: RetentionRun(s.world, s.processes[p]))
    && (forall p | p in s.processes :: WorkRun(s.world, s.processes[p]))
    && Dispatched(s.world)
  }
}
