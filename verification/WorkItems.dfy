/**
 Approved work: rows with leases, the single-lab rule, and the execution outbox.  Every claim that
 was ever handed out may be used at any later time, in any order, by any operation that the store
 offers for it; whether it still takes effect is decided by its lease.
 */
module WorkItems {
  import opened Options

  type Event = nat

  type Token = nat

  type Handle = nat

  datatype Mode = Central | Lab

  datatype Status = Pending | LabPending | Ready | Failed | Cleaned

  datatype ErrorCode =
    | AgentReady | ExecutionComplete | AgentFailed | CleanupFailed | StorageCapacity | ProviderFailed
    | AgentWaiting | LabBroken | LabWaiting | ImportRequired | ImportWaiting | InputInvalid

  datatype Lease = Lease(token: Token, expires: nat)

  datatype Row = Row(
    mode: Mode,
    status: Status,
    lab: Option<Handle>,
    attempts: nat,
    availableAt: nat,
    cleanupDue: Option<nat>,
    error: Option<ErrorCode>,
    created: nat,
    lease: Option<Lease>)

  /** The item as it was when it was claimed, and the lease token. */
  datatype WorkClaim = WorkClaim(event: Event, item: Row, token: Token)

  datatype Entry = Claimed(event: Event, token: Token) | Finished(event: Event, token: Token)

  datatype World = World(
    clock: nat,
    rows: map<Event, Row>,
    outbox: set<Event>,
    tokens: set<Token>,
    claims: set<WorkClaim>,
    log: seq<Entry>)

  const MAX_ATTEMPTS := 1_000_000

  const EXHAUSTED := 20

  const LAB_TTL := 86_400

  // ----- the claim query

  predicate IsDue(clock: nat, due: Option<nat>)
  {
    due.None? || due.value <= clock
  }

  predicate Unleased(w: World, r: Row)
  {
    r.lease.None? || r.lease.value.expires <= w.clock
  }

  predicate Eligible(w: World, r: Row)
  {
    && (|| r.status == Pending
        || r.status == LabPending
        || (r.status == Failed && r.lab.Some? && IsDue(w.clock, r.cleanupDue))
        || (r.status == Ready
            && (r.mode == Central || (r.lab.Some? && (r.error.None? || IsDue(w.clock, r.cleanupDue))))))
    && r.availableAt <= w.clock
    && Unleased(w, r)
  }

  function Rank(s: Status): nat
  {
    match s
    case Failed => 0
    case Ready => 1
    case LabPending => 2
    case _ => 3
  }

  predicate Precedes(a: Row, e: Event, b: Row, f: Event)
  {
    || Rank(a.status) < Rank(b.status)
    || (Rank(a.status) == Rank(b.status) && (a.created < b.created || (a.created == b.created && e <= f)))
  }

  /** The item occupies the one lab, or is about to. */
  predicate HoldsLab(w: World, r: Row)
  {
    || (r.lab.Some? && r.status != Cleaned)
    || (r.mode == Lab && r.status == Pending && r.lease.Some? && r.lease.value.expires > w.clock)
  }

  predicate NeedsLab(r: Row)
  {
    r.mode == Lab && r.status == Pending
  }

  /** A new lab has to wait while another item holds one. */
  predicate MayRun(w: World, e: Event)
    requires e in w.rows
  {
    NeedsLab(w.rows[e]) ==> forall f | f in w.rows && f != e :: !HoldsLab(w, w.rows[f])
  }

  predicate IsSelected(w: World, e: Event)
  {
    && e in w.rows && Eligible(w, w.rows[e]) && MayRun(w, e)
    && forall f | f in w.rows && Eligible(w, w.rows[f]) && MayRun(w, f) :: Precedes(w.rows[e], e, w.rows[f], f)
  }

  /** What the query returns: the eligible rows, in order. */
  predicate IsQueryResult(w: World, rows: seq<Event>)
  {
    && (forall e | e in rows :: e in w.rows && Eligible(w, w.rows[e]))
    && (forall e | e in w.rows && Eligible(w, w.rows[e]) :: e in rows)
    && (forall i, j | 0 <= i < j < |rows| && rows[i] in w.rows && rows[j] in w.rows ::
          Precedes(w.rows[rows[i]], rows[i], w.rows[rows[j]], rows[j]))
  }

  /** The scan over the query result that skips items that have to wait for the lab. */
  method SelectWork(w: World, rows: seq<Event>) returns (selected: Option<Event>)
    requires IsQueryResult(w, rows)
    ensures selected.Some? ==> IsSelected(w, selected.value)
    ensures selected.None? ==> forall e | e in w.rows && Eligible(w, w.rows[e]) :: !MayRun(w, e)
  {
    for i := 0 to |rows|
      invariant forall j | 0 <= j < i :: !MayRun(w, rows[j])
    {
      if MayRun(w, rows[i]) {
        forall f | f in w.rows && Eligible(w, w.rows[f]) && MayRun(w, f)
          ensures Precedes(w.rows[rows[i]], rows[i], w.rows[f], f)
        {
          var j :| 0 <= j < |rows| && rows[j] == f;
        }
        return Some(rows[i]);
      }
    }
    return None;
  }

  function ClaimedRow(w: World, r: Row, token: Token, seconds: nat): Row
  {
    r.(attempts := r.attempts + 1, lease := Some(Lease(token, w.clock + seconds)))
  }

  /** The attempts column is checked by the table; a claim beyond its bound is rolled back. */
  predicate CanClaim(w: World, e: Event, token: Token, seconds: nat)
  {
    IsSelected(w, e) && token !in w.tokens && 6 <= seconds <= 3600 && w.rows[e].attempts < MAX_ATTEMPTS
  }

  function Claiming(w: World, e: Event, token: Token, seconds: nat): World
    requires e in w.rows
  {
    var r := ClaimedRow(w, w.rows[e], token, seconds);
    w.(rows := w.rows[e := r], tokens := w.tokens + {token},
       claims := w.claims + {WorkClaim(e, r, token)}, log := w.log + [Claimed(e, token)])
  }

  // ----- the operations on a claim

  datatype Operation =
    | RecordLab(handle: Handle)
    | MarkReady(forExecution: bool)
    | CompleteExecution(succeeded: bool)
    | MarkCleaned
    | RetryWork(error: ErrorCode, delay: nat, exhaustible: bool)
    | FailWork(error: ErrorCode)

  /** What an operation demands of the claimed item before it touches the store. */
  predicate Accepts(item: Row, op: Operation)
  {
    match op
    case RecordLab(_) => item.status == Pending && item.mode == Lab
    case MarkReady(_) =>
      (item.status == Pending && item.mode == Central) || item.status == LabPending
    case CompleteExecution(_) => item.status == Ready
    case MarkCleaned => (item.status == Ready || item.status == Failed) && item.lab.Some?
    case RetryWork(_, delay, _) => 1 <= delay <= 3600
    case FailWork(_) => item.status == Pending && item.lab.None?
  }

  /** The row after the operation, written from the claimed item's point of view. */
  function Outcome(w: World, item: Row, r: Row, op: Operation): Row
  {
    match op
    case RecordLab(handle) =>
      r.(status := LabPending, lab := Some(handle), availableAt := w.clock, error := None, lease := None)
    case MarkReady(forExecution) =>
      r.(status := Ready, lease := None, error := if forExecution then Some(AgentReady) else None,
         availableAt := if item.lab.Some? && !forExecution then w.clock + LAB_TTL else w.clock)
    case CompleteExecution(succeeded) => Completed(w, item, r, succeeded)
    case MarkCleaned => r.(status := Cleaned, availableAt := w.clock, error := None, lease := None)
    case RetryWork(error, delay, exhaustible) =>
      r.(status := if exhaustible && item.attempts >= EXHAUSTED then Failed else r.status,
         availableAt := w.clock + delay, error := Some(error), lease := None)
    case FailWork(error) => r.(status := Failed, availableAt := w.clock, error := Some(error), lease := None)
  }

  function Completed(w: World, item: Row, r: Row, succeeded: bool): Row
  {
    if item.lab.None? then r.(status := Cleaned, availableAt := w.clock, error := None, lease := None)
    else if succeeded then
      r.(availableAt := w.clock + LAB_TTL, error := Some(ExecutionComplete),
         cleanupDue := Some(w.clock + LAB_TTL), lease := None)
    else
      r.(status := Failed, availableAt := w.clock, error := Some(AgentFailed), cleanupDue := Some(w.clock), lease := None)
  }

  /** The lease is still the claim's own and has not run out. */
  predicate Owns(w: World, k: WorkClaim)
  {
    && k.event in w.rows
    && w.rows[k.event].lease.Some?
    && w.rows[k.event].lease.value.token == k.token
    && w.rows[k.event].lease.value.expires > w.clock
  }

  /** A second completion of one event violates the outbox key and is rolled back. */
  predicate TakesEffect(w: World, k: WorkClaim, op: Operation)
  {
    Accepts(k.item, op) && Owns(w, k) && (op.CompleteExecution? ==> k.event !in w.outbox)
  }

  function Finishing(w: World, k: WorkClaim, op: Operation): World
    requires TakesEffect(w, k, op)
  {
    w.(rows := w.rows[k.event := Outcome(w, k.item, w.rows[k.event], op)],
       outbox := if op.CompleteExecution? then w.outbox + {k.event} else w.outbox,
       log := w.log + [Finished(k.event, k.token)])
  }

  // ----- the whole store

  datatype Action =
    | Tick(moment: nat)
    | Enqueue(event: Event, mode: Mode)
    | Claim(event: Event, token: Token, seconds: nat)
    | Finish(claim: WorkClaim, op: Operation)

  function Enqueued(w: World, e: Event, mode: Mode): World
  {
    if e in w.rows then w
    else w.(rows := w.rows[e := Row(mode, Pending, None, 0, w.clock, None, None, w.clock, None)])
  }

  function Next(w: World, a: Action): World
  {
    match a
    case Tick(moment) => if w.clock <= moment then w.(clock := moment) else w
    case Enqueue(e, mode) => Enqueued(w, e, mode)
    case Claim(e, token, seconds) => if CanClaim(w, e, token, seconds) then Claiming(w, e, token, seconds) else w
    case Finish(k, op) => if k in w.claims && TakesEffect(w, k, op) then Finishing(w, k, op) else w
  }

  function After(w: World, run: seq<Action>): World
    decreases |run|
  {
    if run == [] then w else After(Next(w, run[0]), run[1..])
  }

  predicate Initial(w: World)
  {
    w.rows == map[] && w.outbox == {} && w.tokens == {} && w.claims == {} && w.log == []
  }

  datatype ClaimResult = NoWork | Refused | Work(claim: WorkClaim)

  /** The store as the workers see it: one transaction per method. */
  class WorkStore {
    var world: World

    constructor (w: World)
      ensures world == w
    {
      world := w;
    }

    /** Hand out the first item that may run, under a fresh lease. */
    method ClaimWork(rows: seq<Event>, token: Token, seconds: nat) returns (result: ClaimResult)
      requires IsQueryResult(world, rows) && token !in world.tokens && 6 <= seconds <= 3600
      modifies this
      ensures result.NoWork? <==>
        forall e | e in old(world).rows && Eligible(old(world), old(world).rows[e]) :: !MayRun(old(world), e)
      ensures result.Refused? ==> exists e :: IsSelected(old(world), e) && old(world).rows[e].attempts >= MAX_ATTEMPTS
      ensures result.Work? ==>
        && IsSelected(old(world), result.claim.event) && result.claim.token == token
        && result.claim.item.attempts == old(world).rows[result.claim.event].attempts + 1
        && world == Next(old(world), Claim(result.claim.event, token, seconds))
        && result.claim in world.claims && Owns(world, result.claim)
      ensures !result.Work? ==> world == old(world)
    {
      var selected := SelectWork(world, rows);
      if selected.None? { return NoWork; }
      var e := selected.value;
      if world.rows[e].attempts >= MAX_ATTEMPTS { return Refused; }
      var item := ClaimedRow(world, world.rows[e], token, seconds);
      world := Claiming(world, e, token, seconds);
      return Work(WorkClaim(e, item, token));
    }

    /** End a claim by one of its operations; without its lease nothing happens. */
    method FinishClaim(k: WorkClaim, op: Operation) returns (done: bool)
      requires k in world.claims
      modifies this
      ensures done <==> TakesEffect(old(world), k, op)
      ensures world == Next(old(world), Finish(k, op))
    {
      done := TakesEffect(world, k, op);
      if done { world := Finishing(world, k, op); }
    }
  }
}
