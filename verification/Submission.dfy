/**
 Submission of an approved manifest: the store's rows with their leases, any number of workers,
 and a remote Moodle whose responses can be lost.  A step is one store transaction or one remote
 call; a crash can end a worker between any two.
 */
module Submission {
  import opened Options

  type Event = nat

  type Digest = nat

  type Token = nat

  type Pid = nat

  type Reference = nat

  datatype Status = AwaitingApproval | Approved | Declined | Uploading | Saving | Finalizing | Submitted | Failed

  datatype Lease = Lease(token: Token, expires: nat)

  /** `submit` is the human decision on the manifest, once there is one. */
  datatype Row = Row(
    manifest: Digest,
    drafts: bool,
    created: nat,
    status: Status,
    submit: Option<bool>,
    lease: Option<Lease>,
    draft: Option<nat>,
    receipt: Option<Reference>)

  /** What Moodle holds for the assignment: nothing, an editable draft, or the submission. */
  datatype Remote = Nothing | Draft | Held

  /** The remote calls that concern a submission; `held` is what Moodle held when the call was made. */
  datatype Call =
    | UploadCall(event: Event, manifest: Digest)
    | SaveCall(event: Event, manifest: Digest)
    | VerifyDraftCall(event: Event, manifest: Digest)
    | VerifyCall(event: Event, manifest: Digest, receipt: Option<Reference>)
    | FinalizeCall(event: Event, manifest: Digest, held: bool)

  datatype World = World(
    clock: nat,
    rows: map<Event, Row>,
    remote: map<Event, Remote>,
    tokens: set<Token>,
    log: seq<Call>)

  /** What a worker does next for the row that it has claimed. */
  datatype Phase =
    | Upload
    | RecordDraft(item: nat)
    | Save
    | VerifyDraft
    | VerifySaved
    | RecordFinalizing
    | Reconcile
    | ReconcileDraft
    | Finalize
    | VerifyFinal
    | VerifyLost
    | VerifyDraftLost
    | Complete(reference: Reference)
    | Fail

  datatype Worker = Worker(event: Event, manifest: Digest, drafts: bool, token: Token, phase: Phase)

  datatype State = State(world: World, workers: map<Pid, Worker>)

  /** A remote answer; an error may hide an effect that took place. */
  datatype Reply = Answer(value: nat) | Error(applied: bool)

  datatype Action =
    | Tick(moment: nat)
    | Prepare(event: Event, manifest: Digest, drafts: bool)
    | Decide(event: Event, submit: bool)
    | Claim(pid: Pid, event: Event, token: Token, seconds: nat)
    | Advance(pid: Pid, reply: Reply)
    | Crash(pid: Pid)

  // ----- claiming

  predicate Expired(w: World, r: Row)
  {
    r.lease.Some? && r.lease.value.expires <= w.clock
  }

  /** An upload whose lease has run out never reached the assignment and is offered again. */
  function Reopened(w: World, r: Row): Row
  {
    if r.status == Uploading && Expired(w, r) then r.(status := Approved, lease := None) else r
  }

  predicate Claimable(w: World, r: Row)
  {
    r.status == Approved || ((r.status == Saving || r.status == Finalizing) && Expired(w, r))
  }

  function Rank(r: Row): nat
  {
    if r.status == Saving then 0 else if r.status == Finalizing then 1 else 2
  }

  predicate Precedes(a: Row, e: Event, b: Row, f: Event)
  {
    || Rank(a) < Rank(b)
    || (Rank(a) == Rank(b) && (a.created < b.created || (a.created == b.created && e <= f)))
  }

  /** The row that the claim query returns: the first of all claimable ones. */
  predicate IsNext(w: World, e: Event)
  {
    && e in w.rows
    && Claimable(w, Reopened(w, w.rows[e]))
    && forall f | f in w.rows && Claimable(w, Reopened(w, w.rows[f])) ::
         Precedes(Reopened(w, w.rows[e]), e, Reopened(w, w.rows[f]), f)
  }

  function Leased(r: Row, lease: Lease): Row
  {
    r.(status := if r.status == Approved then Uploading else r.status, lease := Some(lease))
  }

  function Claimed(w: World, e: Event, token: Token, seconds: nat): World
    requires e in w.rows
  {
    var reopened := map f | f in w.rows :: Reopened(w, w.rows[f]);
    w.(rows := reopened[e := Leased(reopened[e], Lease(token, w.clock + seconds))], tokens := w.tokens + {token})
  }

  function FirstPhase(r: Row): Phase
  {
    match r.status
    case Saving => if r.drafts then VerifyDraft else VerifySaved
    case Finalizing => Reconcile
    case _ => Upload
  }

  // ----- the store transactions of a worker

  /** The row is in one of the expected states under the worker's own, unexpired lease. */
  predicate Owns(w: World, k: Worker, statuses: set<Status>)
  {
    && k.event in w.rows
    && w.rows[k.event].status in statuses
    && w.rows[k.event].lease.Some?
    && w.rows[k.event].lease.value.token == k.token
    && w.rows[k.event].lease.value.expires > w.clock
  }

  function Updated(w: World, e: Event, r: Row): World
  {
    w.(rows := w.rows[e := r])
  }

  const ACTIVE := {Uploading, Saving, Finalizing}

  datatype Moved = Moved(world: World, next: Option<Worker>)

  function Goes(w: World, k: Worker, phase: Phase): Moved
  {
    Moved(w, Some(k.(phase := phase)))
  }

  function Recording(w: World, k: Worker, item: nat): Moved
  {
    if Owns(w, k, {Uploading}) then
      Goes(Updated(w, k.event, w.rows[k.event].(status := Saving, draft := Some(item))), k, Save)
    else Moved(w, None)
  }

  function RecordingFinalizing(w: World, k: Worker): Moved
  {
    if Owns(w, k, {Saving}) then Goes(Updated(w, k.event, w.rows[k.event].(status := Finalizing)), k, Reconcile)
    else Moved(w, None)
  }

  function Completing(w: World, k: Worker, reference: Reference): Moved
  {
    if Owns(w, k, ACTIVE) then
      Moved(Updated(w, k.event, w.rows[k.event].(status := Submitted, lease := None, receipt := Some(reference))), None)
    else Moved(w, None)
  }

  function Failing(w: World, k: Worker): Moved
  {
    if Owns(w, k, ACTIVE) then Moved(Updated(w, k.event, w.rows[k.event].(status := Failed, lease := None)), None)
    else Moved(w, None)
  }

  // ----- the remote calls of a worker

  function RemoteOf(w: World, e: Event): Remote
  {
    if e in w.remote then w.remote[e] else Nothing
  }

  predicate Applied(reply: Reply)
  {
    reply.Answer? || reply.applied
  }

  function Logged(w: World, call: Call): World
  {
    w.(log := w.log + [call])
  }

  function Becomes(w: World, e: Event, r: Remote): World
  {
    w.(remote := w.remote[e := r])
  }

  function Uploaded(w: World, k: Worker, reply: Reply): Moved
  {
    Goes(Logged(w, UploadCall(k.event, k.manifest)), k, if reply.Answer? then RecordDraft(reply.value) else Fail)
  }

  /** Saving fills the draft, or submits at once where the assignment has no drafts. */
  function Saved(w: World, k: Worker, reply: Reply): Moved
  {
    var called := Logged(w, SaveCall(k.event, k.manifest));
    Goes(SaveApplied(called, k, reply), k, if k.drafts then VerifyDraft else VerifySaved)
  }

  function SaveApplied(w: World, k: Worker, reply: Reply): World
  {
    if Applied(reply) then Becomes(w, k.event, if k.drafts then Draft else Held) else w
  }

  /** The draft check: `found` if Moodle has the exact draft. */
  function DraftChecked(w: World, k: Worker, reply: Reply, found: Phase): Moved
  {
    Goes(Logged(w, VerifyDraftCall(k.event, k.manifest)), k,
         if reply.Answer? && RemoteOf(w, k.event) == Draft then found else Fail)
  }

  /** The submission check: a receipt exactly if Moodle holds the submission. */
  function Verified(w: World, k: Worker, reply: Reply, missing: Phase): Moved
  {
    if reply.Error? then
      Goes(Logged(w, VerifyCall(k.event, k.manifest, None)), k, Fail)
    else if RemoteOf(w, k.event) == Held then
      Goes(Logged(w, VerifyCall(k.event, k.manifest, Some(reply.value))), k, Complete(reply.value))
    else
      Goes(Logged(w, VerifyCall(k.event, k.manifest, None)), k, missing)
  }

  function Finalized(w: World, k: Worker, reply: Reply): Moved
  {
    var called := Logged(w, FinalizeCall(k.event, k.manifest, RemoteOf(w, k.event) == Held));
    Goes(FinalizeApplied(called, k, reply), k, if reply.Answer? then VerifyFinal else VerifyLost)
  }

  function FinalizeApplied(w: World, k: Worker, reply: Reply): World
  {
    if Applied(reply) then Becomes(w, k.event, Held) else w
  }

  /** One step of a worker. */
  function Step(w: World, k: Worker, reply: Reply): Moved
  {
    match k.phase
    case Upload => Uploaded(w, k, reply)
    case RecordDraft(item) => Recording(w, k, item)
    case Save => Saved(w, k, reply)
    case VerifyDraft => DraftChecked(w, k, reply, RecordFinalizing)
    case VerifySaved => Verified(w, k, reply, Fail)
    case RecordFinalizing => RecordingFinalizing(w, k)
    case Reconcile => Verified(w, k, reply, ReconcileDraft)
    case ReconcileDraft => DraftChecked(w, k, reply, Finalize)
    case Finalize => Finalized(w, k, reply)
    case VerifyFinal => Verified(w, k, reply, Fail)
    case VerifyLost => Verified(w, k, reply, VerifyDraftLost)
    case VerifyDraftLost => DraftChecked(w, k, reply, Fail)
    case Complete(reference) => Completing(w, k, reference)
    case Fail => Failing(w, k)
  }

  function Resumed(s: State, pid: Pid, m: Moved): State
  {
    State(m.world, if m.next.Some? then s.workers[pid := m.next.value] else s.workers - {pid})
  }

  // ----- the whole system

  function Prepared(w: World, e: Event, manifest: Digest, drafts: bool): World
  {
    if e in w.rows then w
    else w.(rows := w.rows[e := Row(manifest, drafts, w.clock, AwaitingApproval, None, None, None, None)])
  }

  function Decided(w: World, e: Event, submit: bool): World
  {
    if e in w.rows && w.rows[e].status == AwaitingApproval then
      Updated(w, e, w.rows[e].(status := if submit then Approved else Declined, submit := Some(submit)))
    else w
  }

  predicate CanClaim(s: State, a: Action)
    requires a.Claim?
  {
    a.pid !in s.workers && a.token !in s.world.tokens && 6 <= a.seconds <= 3600 && IsNext(s.world, a.event)
  }

  function ClaimedBy(s: State, a: Action): State
    requires a.Claim? && CanClaim(s, a)
  {
    var r := Reopened(s.world, s.world.rows[a.event]);
    State(Claimed(s.world, a.event, a.token, a.seconds),
          s.workers[a.pid := Worker(a.event, r.manifest, r.drafts, a.token, FirstPhase(r))])
  }

  function Next(s: State, a: Action): State
  {
    match a
    case Tick(moment) => if s.world.clock <= moment then s.(world := s.world.(clock := moment)) else s
    case Prepare(e, manifest, drafts) => s.(world := Prepared(s.world, e, manifest, drafts))
    case Decide(e, submit) => s.(world := Decided(s.world, e, submit))
    case Claim(_, _, _, _) => if CanClaim(s, a) then ClaimedBy(s, a) else s
    case Advance(pid, reply) =>
      if pid in s.workers then Resumed(s, pid, Step(s.world, s.workers[pid], reply)) else s
    case Crash(pid) => s.(workers := s.workers - {pid})
  }

  function After(s: State, run: seq<Action>): State
    decreases |run|
  {
    if run == [] then s else After(Next(s, run[0]), run[1..])
  }

  /** No row, no worker and no call yet, whatever Moodle holds. */
  predicate Initial(s: State)
  {
    s.world.rows == map[] && s.world.log == [] && s.workers == map[]
  }
}
