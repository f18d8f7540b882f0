/** What holds of the work table over all runs, and of the worker that drives it. */
module WorkItemTheorems {
  import opened Options
  import opened WorkItems

  // ----- the invariant

  /** The table's checks, the decoder's demands, and what both leave open: a pending item has no lab yet. */
  predicate Decodes(r: Row)
  {
    && r.attempts <= MAX_ATTEMPTS
    && (r.status == LabPending ==> r.lab.Some?)
    && (r.status == Pending ==> r.lab.None?)
    && (r.lab.Some? ==> r.mode == Lab)
    && (r.status == Ready ==> r.mode == Central || r.lab.Some?)
  }

  /** What the corruption probe of the retention query looks for never holds. */
  predicate Possible(r: Row)
  {
    if r.mode == Central then r.status == Cleaned else r.status != Pending && r.status != LabPending
  }

  predicate SingleLab(w: World)
  {
    forall e, f | e in w.rows && f in w.rows && e != f :: !(HoldsLab(w, w.rows[e]) && HoldsLab(w, w.rows[f]))
  }

  /** While a claim's token is on the row, the row is as it was claimed. */
  predicate ClaimHolds(w: World, k: WorkClaim)
  {
    && k.event in w.rows
    && k.token in w.tokens
    && k.item.status != Cleaned && Decodes(k.item)
    && (w.rows[k.event].lease.Some? && w.rows[k.event].lease.value.token == k.token ==> w.rows[k.event] == k.item)
  }

  predicate EndsWith(log: seq<Entry>, e: Event, entry: Entry, i: nat)
  {
    i < |log| && log[i] == entry && forall m | i < m < |log| :: log[m].event != e
  }

  /** Every finish directly follows, among the entries of its event, the claim with its token. */
  ghost predicate Fenced(log: seq<Entry>)
  {
    forall i | 0 <= i < |log| && log[i].Finished? ::
      exists j: nat :: EndsWith(log[..i], log[i].event, Claimed(log[i].event, log[i].token), j)
  }

  ghost predicate LeaseIsLast(w: World, e: Event)
    requires e in w.rows
  {
    w.rows[e].lease.Some? ==>
      && w.rows[e].lease.value.token in w.tokens
      && exists j: nat :: EndsWith(w.log, e, Claimed(e, w.rows[e].lease.value.token), j)
  }

  ghost predicate Inv(w: World)
  {
    && (forall e | e in w.rows :: Decodes(w.rows[e]) && LeaseIsLast(w, e))
    && (forall e | e in w.outbox :: e in w.rows && Possible(w.rows[e]))
    && (forall k | k in w.claims :: ClaimHolds(w, k))
    && SingleLab(w)
    && Fenced(w.log)
  }

  // ----- the log

  lemma Appended(log: seq<Entry>, e: Event, entry: Entry, i: nat, next: Entry)
    requires EndsWith(log, e, entry, i) && next.event != e
    ensures EndsWith(log + [next], e, entry, i)
  {
  }

  lemma LastIsLast(log: seq<Entry>, next: Entry)
    ensures EndsWith(log + [next], next.event, next, |log|)
  {
  }

  lemma FencedAppend(log: seq<Entry>, next: Entry)
    requires Fenced(log)
    requires next.Finished? ==> exists j: nat :: EndsWith(log, next.event, Claimed(next.event, next.token), j)
    ensures Fenced(log + [next])
  {
    var extended := log + [next];
    forall i | 0 <= i < |extended| && extended[i].Finished?
      ensures exists j: nat ::
        EndsWith(extended[..i], extended[i].event, Claimed(extended[i].event, extended[i].token), j)
    {
      if i < |log| {
        assert extended[..i] == log[..i];
      } else {
        assert extended[..i] == log;
      }
    }
  }

  lemma LeaseStaysLast(w: World, v: World, e: Event, next: Entry)
    requires e in w.rows && e in v.rows && v.rows[e] == w.rows[e] && LeaseIsLast(w, e)
    requires next.event != e && v.log == w.log + [next] && w.tokens <= v.tokens
    ensures LeaseIsLast(v, e)
  {
    if w.rows[e].lease.Some? {
      var j: nat :| EndsWith(w.log, e, Claimed(e, w.rows[e].lease.value.token), j);
      Appended(w.log, e, Claimed(e, w.rows[e].lease.value.token), j, next);
    }
  }

  // ----- claiming

  lemma ClaimKeepsSingleLab(w: World, e: Event, token: Token, seconds: nat)
    requires SingleLab(w) && CanClaim(w, e, token, seconds)
    ensures SingleLab(Claiming(w, e, token, seconds))
  {
    var v := Claiming(w, e, token, seconds);
    if NeedsLab(w.rows[e]) {
      assert forall f | f in w.rows && f != e :: !HoldsLab(w, w.rows[f]);
    } else {
      assert HoldsLab(v, v.rows[e]) <==> HoldsLab(w, w.rows[e]);
    }
  }

  lemma ClaimKeepsInv(w: World, e: Event, token: Token, seconds: nat)
    requires Inv(w) && CanClaim(w, e, token, seconds)
    ensures Inv(Claiming(w, e, token, seconds))
  {
    var v := Claiming(w, e, token, seconds);
    ClaimKeepsSingleLab(w, e, token, seconds);
    FencedAppend(w.log, Claimed(e, token));
    LastIsLast(w.log, Claimed(e, token));
    forall f | f in v.rows ensures LeaseIsLast(v, f) {
      if f != e { LeaseStaysLast(w, v, f, Claimed(e, token)); }
    }
    hide IsSelected, SingleLab, Fenced, EndsWith;
  }

  // ----- finishing

  lemma OutcomeDecodes(w: World, r: Row, op: Operation)
    requires Decodes(r) && Accepts(r, op) && r.status != Cleaned
    ensures Decodes(Outcome(w, r, r, op))
    ensures Outcome(w, r, r, op).lease.None? && Outcome(w, r, r, op).mode == r.mode
    ensures Level(Outcome(w, r, r, op).status) >= Level(r.status)
    ensures op.CompleteExecution? ==> Possible(Outcome(w, r, r, op))
  {
  }

  /** Only an item that occupies or reserves the lab goes on to hold it. */
  lemma OutcomeHoldsLab(w: World, r: Row, op: Operation)
    requires Decodes(r) && Accepts(r, op) && r.status != Cleaned && r.lease.Some? && r.lease.value.expires > w.clock
    ensures HoldsLab(w, Outcome(w, r, r, op)) ==> HoldsLab(w, r)
  {
  }

  function Level(s: Status): nat
  {
    match s
    case Pending => 0
    case LabPending => 1
    case Ready => 2
    case Failed => 3
    case Cleaned => 4
  }

  lemma FinishKeepsRow(w: World, k: WorkClaim, op: Operation)
    requires Inv(w) && k in w.claims && TakesEffect(w, k, op)
    ensures w.rows[k.event] == k.item
    ensures var r := Finishing(w, k, op).rows[k.event];
      && Decodes(r) && r.lease.None? && r.mode == k.item.mode
      && Level(r.status) >= Level(k.item.status)
      && (op.CompleteExecution? ==> Possible(r))
      && (HoldsLab(w, r) ==> HoldsLab(w, k.item))
  {
    assert ClaimHolds(w, k);
    OutcomeDecodes(w, k.item, op);
    OutcomeHoldsLab(w, k.item, op);
  }

  lemma FinishKeepsInv(w: World, k: WorkClaim, op: Operation)
    requires Inv(w) && k in w.claims && TakesEffect(w, k, op)
    ensures Inv(Finishing(w, k, op))
  {
    var v := Finishing(w, k, op);
    FinishKeepsRow(w, k, op);
    assert LeaseIsLast(w, k.event);
    FencedAppend(w.log, Finished(k.event, k.token));
    forall f | f in v.rows ensures LeaseIsLast(v, f) {
      if f != k.event { LeaseStaysLast(w, v, f, Finished(k.event, k.token)); }
    }
    hide Outcome, Decodes, Fenced, EndsWith, Accepts;
    assert forall f | f in w.rows && f != k.event :: HoldsLab(v, v.rows[f]) <==> HoldsLab(w, w.rows[f]);
  }

  // ----- every run

  lemma NextKeepsInv(w: World, a: Action)
    requires Inv(w)
    ensures Inv(Next(w, a))
  {
    match a
    case Tick(moment) =>
      if w.clock <= moment {
        assert forall e | e in w.rows :: HoldsLab(w.(clock := moment), w.rows[e]) ==> HoldsLab(w, w.rows[e]);
        assert forall e | e in w.rows :: LeaseIsLast(w, e) ==> LeaseIsLast(w.(clock := moment), e);
      }
    case Enqueue(e, mode) =>
      var v := Enqueued(w, e, mode);
      assert forall f | f in w.rows :: LeaseIsLast(w, f) ==> LeaseIsLast(v, f);
    case Claim(e, token, seconds) => if CanClaim(w, e, token, seconds) { ClaimKeepsInv(w, e, token, seconds); }
    case Finish(k, op) => if k in w.claims && TakesEffect(w, k, op) { FinishKeepsInv(w, k, op); }
  }

  lemma {:induction false} AfterKeepsInv(w: World, run: seq<Action>)
    requires Inv(w)
    ensures Inv(After(w, run))
    decreases |run|
  {
    if run != [] {
      NextKeepsInv(w, run[0]);
      AfterKeepsInv(Next(w, run[0]), run[1..]);
    }
  }

  /**
   Over every run: at most one item occupies the lab or is about to; every finish directly follows
   the claim with its token, so a token finishes at most once and never after another claim; every
   row satisfies the table's checks and decodes; and the corruption probe never fires.
   */
  lemma {:induction false} StoreIsSound(initial: World, run: seq<Action>)
    requires Initial(initial)
    ensures SingleLab(After(initial, run))
    ensures Fenced(After(initial, run).log)
    ensures forall e | e in After(initial, run).rows :: Decodes(After(initial, run).rows[e])
    ensures forall e | e in After(initial, run).outbox ::
      e in After(initial, run).rows && Possible(After(initial, run).rows[e])
  {
    AfterKeepsInv(initial, run);
  }

  /** Read off the fence: two finishes of one event have a claim between them, with the second one's token. */
  lemma TokensFinishOnce(log: seq<Entry>, i: nat, j: nat)
    requires Fenced(log) && i < j < |log| && log[i].Finished? && log[j].Finished? && log[i].event == log[j].event
    ensures exists m :: i < m < j && log[m] == Claimed(log[j].event, log[j].token)
  {
    var m: nat :| EndsWith(log[..j], log[j].event, Claimed(log[j].event, log[j].token), m);
    assert log[..j][i] == log[i] && log[..j][m] == log[m];
  }

  /** The status of an item never moves back. */
  lemma {:induction false} StatusNeverFalls(w: World, run: seq<Action>, e: Event)
    requires Inv(w) && e in w.rows
    ensures e in After(w, run).rows && Level(w.rows[e].status) <= Level(After(w, run).rows[e].status)
    decreases |run|
  {
    if run != [] {
      NextKeepsInv(w, run[0]);
      StatusNeverFallsNext(w, run[0], e);
      StatusNeverFalls(Next(w, run[0]), run[1..], e);
    }
  }

  lemma StatusNeverFallsNext(w: World, a: Action, e: Event)
    requires Inv(w) && e in w.rows
    ensures e in Next(w, a).rows && Level(w.rows[e].status) <= Level(Next(w, a).rows[e].status)
  {
    if a.Finish? && a.claim in w.claims && TakesEffect(w, a.claim, a.op) { FinishKeepsRow(w, a.claim, a.op); }
  }

  // ----- the worker that drives the store

  /** The backoff table of the worker. */
  function RetryDelay(attempts: nat): (delay: nat)
    ensures 1 <= delay <= 3600
  {
    if attempts <= 1 then 30
    else if attempts == 2 then 60
    else if attempts == 3 then 120
    else if attempts == 4 then 240
    else if attempts == 5 then 480
    else if attempts == 6 then 960
    else 1800
  }

  /** The lab has to go: the item failed, or its execution is over, or nothing executes here. */
  predicate IsCleanup(item: Row, broker: bool)
  {
    item.lab.Some? && (item.status == Failed || (item.status == Ready && (!broker || item.error == Some(ExecutionComplete))))
  }

  predicate Abandons(item: Row, op: Operation)
  {
    || op == RetryWork(StorageCapacity, RetryDelay(item.attempts), false)
    || op == RetryWork(ProviderFailed, RetryDelay(item.attempts), true)
  }

  /**
   An operation that ends a clean-up.  Tearing a lab down and cleaning an import up never asks for
   storage, so running out of it is not among the ways in which a clean-up fails.
   */
  predicate EndsCleanup(item: Row, op: Operation)
  {
    || op == MarkCleaned
    || op == RetryWork(if item.error == Some(ExecutionComplete) then ExecutionComplete else CleanupFailed,
                       RetryDelay(item.attempts), false)
  }

  predicate Provisions(item: Row, op: Operation, broker: bool)
  {
    if item.mode == Central then op == FailWork(InputInvalid) || op == MarkReady(broker)
    else op == FailWork(ImportRequired) || op == RetryWork(ImportWaiting, 60, false) || op.RecordLab?
  }

  /** Every operation with which the worker can end its work on a claimed item. */
  predicate Chooses(item: Row, op: Operation, broker: bool)
  {
    if IsCleanup(item, broker) then EndsCleanup(item, op)
    else if item.status == Pending then Provisions(item, op, broker) || Abandons(item, op)
    else if item.status == Ready && broker then
      op == RetryWork(AgentWaiting, 15, false) || op.CompleteExecution? || Abandons(item, op)
    else if item.status == LabPending && item.lab.Some? then
      || op == MarkReady(broker)
      || op == RetryWork(LabBroken, RetryDelay(item.attempts), true)
      || op == RetryWork(LabWaiting, 30, false)
      || Abandons(item, op)
    else false
  }

  /** Whatever the worker chooses for an item that it has claimed, the store's own checks of the item accept. */
  lemma ChoiceIsAccepted(w: World, k: WorkClaim, op: Operation, broker: bool)
    requires Inv(w) && k in w.claims && Chooses(k.item, op, broker)
    ensures Accepts(k.item, op)
  {
    assert ClaimHolds(w, k);
    hide Inv, ClaimHolds;
  }

  /** A run in which every finish is one that a worker chooses. */
  ghost predicate Driven(run: seq<Action>)
  {
    forall i | 0 <= i < |run| && run[i].Finish? :: exists broker :: Chooses(run[i].claim.item, run[i].op, broker)
  }

  /** An item whose outcome is stored waits for its clean-up, and says so. */
  predicate AwaitsCleanup(w: World)
  {
    forall e | e in w.outbox && e in w.rows && w.rows[e].status == Ready :: w.rows[e].error == Some(ExecutionComplete)
  }

  lemma DrivenNext(w: World, a: Action)
    requires Inv(w) && AwaitsCleanup(w)
    requires a.Finish? ==> exists broker :: Chooses(a.claim.item, a.op, broker)
    ensures AwaitsCleanup(Next(w, a))
  {
    if a.Finish? && a.claim in w.claims && TakesEffect(w, a.claim, a.op) {
      FinishKeepsRow(w, a.claim, a.op);
      var broker :| Chooses(a.claim.item, a.op, broker);
    }
  }

  lemma {:induction false} DrivenKeeps(w: World, run: seq<Action>)
    requires Inv(w) && AwaitsCleanup(w) && Driven(run)
    ensures Inv(After(w, run)) && AwaitsCleanup(After(w, run))
    decreases |run|
  {
    if run != [] {
      assert run[0].Finish? ==> exists broker :: Chooses(run[0].claim.item, run[0].op, broker);
      DrivenNext(w, run[0]);
      NextKeepsInv(w, run[0]);
      forall i | 0 <= i < |run[1..]| && run[1..][i].Finish?
        ensures exists broker :: Chooses(run[1..][i].claim.item, run[1..][i].op, broker)
      {
        assert run[1..][i] == run[i + 1];
      }
      DrivenKeeps(Next(w, run[0]), run[1..]);
    }
  }

  /** The worker never tries to complete an execution whose outcome is already stored. */
  lemma {:induction false} NeverCompletedTwice(
      initial: World, run: seq<Action>, k: WorkClaim, succeeded: bool, broker: bool)
    requires Initial(initial) && Driven(run)
    requires k in After(initial, run).claims && Owns(After(initial, run), k)
    requires Chooses(k.item, CompleteExecution(succeeded), broker)
    ensures k.event !in After(initial, run).outbox
  {
    DrivenKeeps(initial, run);
    assert ClaimHolds(After(initial, run), k);
  }

  /** At the bound of the attempts column the claim fails for every worker while the item is the first one. */
  lemma AttemptsBoundBlocksClaims(w: World, e: Event)
    requires IsSelected(w, e) && w.rows[e].attempts == MAX_ATTEMPTS
    ensures forall f, token, seconds :: Next(w, Claim(f, token, seconds)) == w
  {
    forall f, token, seconds ensures Next(w, Claim(f, token, seconds)) == w {
      if IsSelected(w, f) { assert f == e; }
    }
  }

  // ----- the bound is reached

  const EMPTY := World(0, map[], {}, {}, {}, [])

  /** The one item of the store has been claimed `n` times, and may be claimed again. */
  predicate Waiting(w: World, n: nat)
  {
    && w.rows.Keys == {0} && (forall t | t in w.tokens :: t < n)
    && var r := w.rows[0];
       r.mode == Central && r.status == Ready && r.attempts == n && r.lease.None? && r.availableAt <= w.clock
  }

  lemma WaitingIsSelected(w: World, n: nat)
    requires Waiting(w, n)
    ensures IsSelected(w, 0) && (n < MAX_ATTEMPTS ==> CanClaim(w, 0, n, 60))
  {
  }

  /** One more claim, given back because the agent is not done. */
  function Again(w: World, n: nat): seq<Action>
    requires 0 in w.rows
  {
    [Claim(0, n, 60), Finish(WorkClaim(0, ClaimedRow(w, w.rows[0], n, 60), n), RetryWork(AgentWaiting, 15, false)),
     Tick(w.clock + 15)]
  }

  lemma {:induction false} ThreeSteps(w: World, a: Action, b: Action, c: Action)
    ensures After(w, [a, b, c]) == Next(Next(Next(w, a), b), c)
  {
    hide Next;
    assert [a, b, c][1..] == [b, c] && [b, c][1..] == [c] && [c][1..] == [];
    assert After(Next(w, a), [b, c]) == After(Next(Next(w, a), b), [c]);
  }

  lemma {:induction false} AgainWaits(w: World, n: nat)
    requires Waiting(w, n) && n < MAX_ATTEMPTS
    ensures Waiting(After(w, Again(w, n)), n + 1)
  {
    WaitingIsSelected(w, n);
    var run := Again(w, n);
    ThreeSteps(w, run[0], run[1], run[2]);
    hide After, IsSelected;
    var v := Next(w, run[0]);
    assert TakesEffect(v, run[1].claim, run[1].op);
  }

  lemma {:induction false} AfterAppends(w: World, run: seq<Action>, more: seq<Action>)
    ensures After(w, run + more) == After(After(w, run), more)
    decreases |run|
  {
    if run == [] {
      assert run + more == more;
    } else {
      assert (run + more)[1..] == run[1..] + more;
      AfterAppends(Next(w, run[0]), run[1..], more);
    }
  }

  /** An item whose agent is slow comes to the bound, and then blocks every claim. */
  lemma {:induction false} AttemptsReach(n: nat) returns (run: seq<Action>)
    requires 1 <= n <= MAX_ATTEMPTS
    ensures Waiting(After(EMPTY, run), n) && IsSelected(After(EMPTY, run), 0)
  {
    if n == 1 {
      var item := Row(Central, Pending, None, 1, 0, None, None, 0, Some(Lease(0, 60)));
      run := [Enqueue(0, Central), Claim(0, 0, 60), Finish(WorkClaim(0, item, 0), MarkReady(true))];
      ThreeSteps(EMPTY, run[0], run[1], run[2]);
      hide After;
      var one := Next(EMPTY, run[0]);
      assert IsSelected(one, 0);
      hide IsSelected;
      assert TakesEffect(Next(one, run[1]), run[2].claim, run[2].op);
    } else {
      var before := AttemptsReach(n - 1);
      var w := After(EMPTY, before);
      AgainWaits(w, n - 1);
      run := before + Again(w, n - 1);
      AfterAppends(EMPTY, before, Again(w, n - 1));
      hide Waiting, After;
    }
    WaitingIsSelected(After(EMPTY, run), n);
  }
}
