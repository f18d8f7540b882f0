/** What holds of every run of the submission workers. */
module SubmissionTheorems {
  import opened Options
  import opened Submission

  // ----- the invariant

  predicate Passed(r: Row)
  {
    r.status != AwaitingApproval && r.status != Declined
  }

  /** Past its one save; only a worker that moved the row here ever saves. */
  predicate PastSave(r: Row)
  {
    r.status == Saving || r.status == Finalizing || r.status == Submitted || r.status == Failed
  }

  ghost predicate RowInv(w: World, e: Event, r: Row)
  {
    && (Passed(r) <==> r.submit == Some(true))
    && (r.status == Submitted ==>
          r.receipt.Some? && VerifyCall(e, r.manifest, r.receipt) in w.log)
    && (r.lease.Some? ==> r.lease.value.token in w.tokens)
  }

  ghost predicate Approves(w: World, e: Event, manifest: Digest)
  {
    e in w.rows && w.rows[e].manifest == manifest && w.rows[e].submit == Some(true)
  }

  ghost predicate SaveCalled(w: World, e: Event)
  {
    exists i :: 0 <= i < |w.log| && w.log[i].SaveCall? && w.log[i].event == e
  }

  ghost predicate WorkerInv(w: World, k: Worker)
  {
    && Approves(w, k.event, k.manifest)
    && k.token in w.tokens
    && (k.phase == Save ==> PastSave(w.rows[k.event]) && !SaveCalled(w, k.event))
    && (k.phase.Complete? ==> VerifyCall(k.event, k.manifest, Some(k.phase.reference)) in w.log)
  }

  ghost predicate LogInv(w: World)
  {
    && (forall i | 0 <= i < |w.log| :: Approves(w, w.log[i].event, w.log[i].manifest))
    && (forall i | 0 <= i < |w.log| && w.log[i].SaveCall? :: PastSave(w.rows[w.log[i].event]))
    && (forall i, j | 0 <= i < j < |w.log| && w.log[i].SaveCall? && w.log[j].SaveCall? ::
          w.log[i].event != w.log[j].event)
  }

  ghost predicate Inv(s: State)
  {
    && (forall e | e in s.world.rows :: RowInv(s.world, e, s.world.rows[e]))
    && (forall p | p in s.workers :: WorkerInv(s.world, s.workers[p]))
    && (forall p, q | p in s.workers && q in s.workers && p != q
          && s.workers[p].phase == Save && s.workers[q].phase == Save ::
          s.workers[p].event != s.workers[q].event)
    && LogInv(s.world)
  }

  // ----- what a step does to the rows and to the log

  /** Rows keep their manifest and their decision, and never leave the states past the save. */
  ghost predicate RowsKept(w: World, v: World)
  {
    forall e | e in w.rows ::
      && e in v.rows
      && v.rows[e].manifest == w.rows[e].manifest
      && (w.rows[e].submit.Some? ==> v.rows[e].submit == w.rows[e].submit)
      && (PastSave(w.rows[e]) ==> PastSave(v.rows[e]))
  }

  ghost predicate Kept(w: World, v: World)
  {
    RowsKept(w, v) && w.log <= v.log && w.tokens <= v.tokens
  }

  ghost predicate RowsInv(w: World)
  {
    forall e | e in w.rows :: RowInv(w, e, w.rows[e])
  }

  lemma KeepsRowInv(w: World, v: World, e: Event, r: Row)
    requires RowInv(w, e, r) && w.log <= v.log && w.tokens <= v.tokens
    ensures RowInv(v, e, r)
  {
  }

  /** A call that is not a save leaves every other worker's knowledge alone. */
  lemma LogsOther(w: World, call: Call)
    requires RowsInv(w) && LogInv(w) && !call.SaveCall? && Approves(w, call.event, call.manifest)
    ensures RowsInv(Logged(w, call)) && LogInv(Logged(w, call)) && Kept(w, Logged(w, call))
    ensures forall e :: SaveCalled(Logged(w, call), e) <==> SaveCalled(w, e)
  {
    var v := Logged(w, call);
    assert v.log[|w.log|] == call;
    forall e ensures SaveCalled(v, e) <==> SaveCalled(w, e) {
      if SaveCalled(w, e) {
        var i :| 0 <= i < |w.log| && w.log[i].SaveCall? && w.log[i].event == e;
        assert v.log[i] == w.log[i];
      }
    }
    forall e | e in v.rows ensures RowInv(v, e, v.rows[e]) {
      KeepsRowInv(w, v, e, w.rows[e]);
    }
  }

  lemma LogsSave(w: World, e: Event, manifest: Digest)
    requires RowsInv(w) && LogInv(w) && Approves(w, e, manifest) && PastSave(w.rows[e]) && !SaveCalled(w, e)
    ensures RowsInv(Logged(w, SaveCall(e, manifest))) && LogInv(Logged(w, SaveCall(e, manifest)))
    ensures Kept(w, Logged(w, SaveCall(e, manifest)))
    ensures forall f | f != e :: SaveCalled(Logged(w, SaveCall(e, manifest)), f) <==> SaveCalled(w, f)
  {
    var v := Logged(w, SaveCall(e, manifest));
    assert v.log[|w.log|] == SaveCall(e, manifest);
    forall f | f != e ensures SaveCalled(v, f) <==> SaveCalled(w, f) {
      if SaveCalled(w, f) {
        var i :| 0 <= i < |w.log| && w.log[i].SaveCall? && w.log[i].event == f;
        assert v.log[i] == w.log[i];
      }
    }
    forall f | f in v.rows ensures RowInv(v, f, v.rows[f]) {
      KeepsRowInv(w, v, f, w.rows[f]);
    }
  }

  /** Save calls of other events, and of this one unless the step is its save, are as before. */
  ghost predicate SavesKept(w: World, v: World, k: Worker)
  {
    forall e | e != k.event || k.phase != Save :: SaveCalled(v, e) <==> SaveCalled(w, e)
  }

  ghost predicate StepOk(w: World, k: Worker, m: Moved)
  {
    && RowsInv(m.world) && LogInv(m.world) && Kept(w, m.world) && SavesKept(w, m.world, k)
    && (m.next.Some? ==>
          && WorkerInv(m.world, m.next.value) && m.next.value.event == k.event
          && (m.next.value.phase == Save ==> k.event in w.rows && !PastSave(w.rows[k.event])))
  }

  ghost predicate Ready(w: World, k: Worker)
  {
    RowsInv(w) && LogInv(w) && WorkerInv(w, k)
  }

  /** A change of what Moodle holds concerns none of these facts. */
  lemma RemoteIsFree(w: World, e: Event, r: Remote)
    requires RowsInv(w) && LogInv(w)
    ensures RowsInv(Becomes(w, e, r)) && LogInv(Becomes(w, e, r)) && Kept(w, Becomes(w, e, r))
    ensures forall f :: SaveCalled(Becomes(w, e, r), f) <==> SaveCalled(w, f)
    ensures forall f, m | Approves(w, f, m) :: Approves(Becomes(w, e, r), f, m)
  {
    var v := Becomes(w, e, r);
    assert v.log == w.log && v.rows == w.rows && v.tokens == w.tokens;
    forall f | f in v.rows ensures RowInv(v, f, v.rows[f]) {
      KeepsRowInv(w, v, f, w.rows[f]);
    }
  }

  lemma UploadOk(w: World, k: Worker, reply: Reply)
    requires Ready(w, k) && k.phase == Upload
    ensures StepOk(w, k, Step(w, k, reply))
  {
    LogsOther(w, UploadCall(k.event, k.manifest));
  }

  lemma SaveOk(w: World, k: Worker, reply: Reply)
    requires Ready(w, k) && k.phase == Save
    ensures StepOk(w, k, Step(w, k, reply))
  {
    LogsSave(w, k.event, k.manifest);
    RemoteIsFree(Logged(w, SaveCall(k.event, k.manifest)), k.event, if k.drafts then Draft else Held);
  }

  lemma DraftCheckedOk(w: World, k: Worker, reply: Reply, found: Phase)
    requires Ready(w, k) && k.phase != Save && found != Save && !found.Complete?
    ensures StepOk(w, k, DraftChecked(w, k, reply, found))
  {
    LogsOther(w, VerifyDraftCall(k.event, k.manifest));
  }

  lemma VerifiedOk(w: World, k: Worker, reply: Reply, missing: Phase)
    requires Ready(w, k) && k.phase != Save && missing != Save && !missing.Complete?
    ensures StepOk(w, k, Verified(w, k, reply, missing))
  {
    LogsOther(w, VerifyCall(k.event, k.manifest, None));
    if reply.Answer? {
      var call := VerifyCall(k.event, k.manifest, Some(reply.value));
      LogsOther(w, call);
      assert Logged(w, call).log[|w.log|] == call;
    }
  }

  lemma FinalizedOk(w: World, k: Worker, reply: Reply)
    requires Ready(w, k) && k.phase == Finalize
    ensures StepOk(w, k, Step(w, k, reply))
  {
    var call := FinalizeCall(k.event, k.manifest, RemoteOf(w, k.event) == Held);
    LogsOther(w, call);
    RemoteIsFree(Logged(w, call), k.event, Held);
  }

  /** A store transaction that replaces one row and keeps what has to be kept. */
  lemma UpdateOk(w: World, e: Event, r: Row)
    requires RowsInv(w) && LogInv(w) && e in w.rows && RowInv(w, e, r)
    requires r.manifest == w.rows[e].manifest && (w.rows[e].submit.Some? ==> r.submit == w.rows[e].submit)
    requires PastSave(w.rows[e]) ==> PastSave(r)
    ensures RowsInv(Updated(w, e, r)) && LogInv(Updated(w, e, r)) && Kept(w, Updated(w, e, r))
    ensures forall f :: SaveCalled(Updated(w, e, r), f) <==> SaveCalled(w, f)
    ensures forall f, m | Approves(w, f, m) :: Approves(Updated(w, e, r), f, m)
  {
    var v := Updated(w, e, r);
    assert v.log == w.log && v.tokens == w.tokens;
    forall f | f in v.rows ensures RowInv(v, f, v.rows[f]) {
      KeepsRowInv(w, v, f, v.rows[f]);
    }
  }

  lemma RecordingOk(w: World, k: Worker, item: nat)
    requires Ready(w, k) && k.phase == RecordDraft(item)
    ensures StepOk(w, k, Recording(w, k, item))
  {
    if Owns(w, k, {Uploading}) {
      var r := w.rows[k.event];
      assert SaveCalled(w, k.event) ==> PastSave(r);
      UpdateOk(w, k.event, r.(status := Saving, draft := Some(item)));
    }
  }

  lemma RecordingFinalizingOk(w: World, k: Worker)
    requires Ready(w, k) && k.phase == RecordFinalizing
    ensures StepOk(w, k, RecordingFinalizing(w, k))
  {
    if Owns(w, k, {Saving}) { UpdateOk(w, k.event, w.rows[k.event].(status := Finalizing)); }
  }

  lemma CompletingOk(w: World, k: Worker, reference: Reference)
    requires Ready(w, k) && k.phase == Complete(reference)
    ensures StepOk(w, k, Completing(w, k, reference))
  {
    if Owns(w, k, ACTIVE) {
      UpdateOk(w, k.event, w.rows[k.event].(status := Submitted, lease := None, receipt := Some(reference)));
    }
  }

  lemma FailingOk(w: World, k: Worker)
    requires Ready(w, k) && k.phase == Fail
    ensures StepOk(w, k, Failing(w, k))
  {
    if Owns(w, k, ACTIVE) { UpdateOk(w, k.event, w.rows[k.event].(status := Failed, lease := None)); }
  }

  lemma StepIsOk(w: World, k: Worker, reply: Reply)
    requires Ready(w, k)
    ensures StepOk(w, k, Step(w, k, reply))
  {
    hide StepOk, Ready, Recording, RecordingFinalizing, Completing;
    hide Failing, Uploaded, Saved, DraftChecked, Verified, Finalized;
    match k.phase
    case Upload => UploadOk(w, k, reply);
    case RecordDraft(item) => RecordingOk(w, k, item);
    case Save => SaveOk(w, k, reply);
    case VerifyDraft => DraftCheckedOk(w, k, reply, RecordFinalizing);
    case VerifySaved => VerifiedOk(w, k, reply, Fail);
    case RecordFinalizing => RecordingFinalizingOk(w, k);
    case Reconcile => VerifiedOk(w, k, reply, ReconcileDraft);
    case ReconcileDraft => DraftCheckedOk(w, k, reply, Finalize);
    case Finalize => FinalizedOk(w, k, reply);
    case VerifyFinal => VerifiedOk(w, k, reply, Fail);
    case VerifyLost => VerifiedOk(w, k, reply, VerifyDraftLost);
    case VerifyDraftLost => DraftCheckedOk(w, k, reply, Fail);
    case Complete(reference) => CompletingOk(w, k, reference);
    case Fail => FailingOk(w, k);
  }

  // ----- every run

  lemma OthersKept(w: World, v: World, k: Worker, other: Worker)
    requires Kept(w, v) && SavesKept(w, v, k) && WorkerInv(w, other)
    requires k.phase == Save && other.phase == Save ==> other.event != k.event
    ensures WorkerInv(v, other)
  {
  }

  lemma OthersStayReady(s: State, pid: Pid, m: Moved)
    requires Inv(s) && pid in s.workers && StepOk(s.world, s.workers[pid], m)
    ensures forall q | q in s.workers && q != pid :: WorkerInv(m.world, s.workers[q])
  {
    forall q | q in s.workers && q != pid ensures WorkerInv(m.world, s.workers[q]) {
      OthersKept(s.world, m.world, s.workers[pid], s.workers[q]);
    }
  }

  /** A worker comes to its save from a row that nobody has saved for or is about to. */
  lemma SaversDiffer(s: State, pid: Pid, m: Moved)
    requires Inv(s) && pid in s.workers && StepOk(s.world, s.workers[pid], m) && m.next.Some?
      && m.next.value.phase == Save
    ensures forall q | q in s.workers && q != pid && s.workers[q].phase == Save ::
      s.workers[q].event != m.next.value.event
  {
    forall q | q in s.workers && q != pid && s.workers[q].phase == Save
      ensures s.workers[q].event != m.next.value.event
    {
      assert WorkerInv(s.world, s.workers[q]);
    }
  }

  lemma AdvanceKeepsInv(s: State, pid: Pid, reply: Reply)
    requires Inv(s) && pid in s.workers
    ensures Inv(Next(s, Advance(pid, reply)))
  {
    var m := Step(s.world, s.workers[pid], reply);
    StepIsOk(s.world, s.workers[pid], reply);
    OthersStayReady(s, pid, m);
    if m.next.Some? && m.next.value.phase == Save { SaversDiffer(s, pid, m); }
    hide Step, RowInv, WorkerInv, LogInv, RowsKept, SavesKept;
  }

  lemma ClaimKeepsRow(w: World, e: Event, token: Token, seconds: nat, f: Event)
    requires e in w.rows && f in w.rows && RowInv(w, f, w.rows[f])
    ensures var v := Claimed(w, e, token, seconds);
      && RowInv(v, f, v.rows[f])
      && v.rows[f].manifest == w.rows[f].manifest && v.rows[f].submit == w.rows[f].submit
      && (PastSave(w.rows[f]) ==> PastSave(v.rows[f]))
  {
  }

  lemma ClaimKeepsRows(w: World, e: Event, token: Token, seconds: nat)
    requires RowsInv(w) && LogInv(w) && e in w.rows && token !in w.tokens
    ensures var v := Claimed(w, e, token, seconds);
      RowsInv(v) && LogInv(v) && Kept(w, v) && v.log == w.log
  {
    var v := Claimed(w, e, token, seconds);
    assert v.log == w.log && v.rows.Keys == w.rows.Keys && w.tokens <= v.tokens;
    forall f | f in w.rows
      ensures RowInv(v, f, v.rows[f])
      ensures v.rows[f].manifest == w.rows[f].manifest && v.rows[f].submit == w.rows[f].submit
      ensures PastSave(w.rows[f]) ==> PastSave(v.rows[f])
    {
      ClaimKeepsRow(w, e, token, seconds, f);
    }
    hide Claimed, RowInv, PastSave;
  }

  lemma ClaimantReady(w: World, e: Event, token: Token, seconds: nat)
    requires RowsInv(w) && e in w.rows && Claimable(w, Reopened(w, w.rows[e]))
    ensures var r := Reopened(w, w.rows[e]);
      WorkerInv(Claimed(w, e, token, seconds), Worker(e, r.manifest, r.drafts, token, FirstPhase(r)))
  {
    assert RowInv(w, e, w.rows[e]);
  }

  lemma ClaimKeepsInv(s: State, a: Action)
    requires Inv(s) && a.Claim? && CanClaim(s, a)
    ensures Inv(ClaimedBy(s, a))
  {
    assert a.event in s.world.rows;
    hide RowInv, WorkerInv, LogInv, Claimed, Reopened, IsNext;
    var k := NewClaimant(s, a);
    ClaimKeepsRows(s.world, a.event, a.token, a.seconds);
    OthersStayReadyOnClaim(s, ClaimedBy(s, a).world);
    hide ClaimedBy, CanClaim, Kept;
  }

  lemma NewClaimant(s: State, a: Action) returns (k: Worker)
    requires Inv(s) && a.Claim? && CanClaim(s, a)
    ensures ClaimedBy(s, a).workers == s.workers[a.pid := k]
    ensures k.phase != Save && WorkerInv(ClaimedBy(s, a).world, k)
  {
    k := ClaimedBy(s, a).workers[a.pid];
    ClaimantReady(s.world, a.event, a.token, a.seconds);
    hide WorkerInv, Claimed, Reopened;
  }

  lemma OthersStayReadyOnClaim(s: State, v: World)
    requires Inv(s) && Kept(s.world, v) && v.log == s.world.log
    ensures forall p | p in s.workers :: WorkerInv(v, s.workers[p])
  {
    hide WorkerInv, Kept;
    forall p | p in s.workers ensures WorkerInv(v, s.workers[p]) {
      SameLog(s.world, v, s.workers[p]);
    }
  }

  lemma SameLog(w: World, v: World, k: Worker)
    requires Kept(w, v) && v.log == w.log && WorkerInv(w, k)
    ensures WorkerInv(v, k)
  {
    assert SaveCalled(v, k.event) <==> SaveCalled(w, k.event);
  }

  lemma {:induction false} NextKeepsInv(s: State, a: Action)
    requires Inv(s)
    ensures Inv(Next(s, a))
  {
    match a
    case Tick(moment) => TickKeepsInv(s, moment);
    case Prepare(e, manifest, drafts) => PrepareKeepsInv(s, e, manifest, drafts);
    case Decide(e, submit) => DecideKeepsInv(s, e, submit);
    case Claim(_, _, _, _) => if CanClaim(s, a) { ClaimKeepsInv(s, a); }
    case Advance(pid, reply) => if pid in s.workers { AdvanceKeepsInv(s, pid, reply); }
    case Crash(_) =>
  }

  lemma TickKeepsInv(s: State, moment: nat)
    requires Inv(s)
    ensures Inv(s.(world := s.world.(clock := moment)))
  {
    SameButClock(s.world, s.world.(clock := moment));
  }

  lemma SameButClock(w: World, v: World)
    requires v.rows == w.rows && v.log == w.log && v.tokens == w.tokens
    ensures forall e, r | RowInv(w, e, r) :: RowInv(v, e, r)
    ensures forall k | WorkerInv(w, k) :: WorkerInv(v, k)
    ensures LogInv(w) ==> LogInv(v)
  {
    forall e ensures SaveCalled(v, e) <==> SaveCalled(w, e) {
    }
  }

  lemma PrepareKeepsInv(s: State, e: Event, manifest: Digest, drafts: bool)
    requires Inv(s)
    ensures Inv(s.(world := Prepared(s.world, e, manifest, drafts)))
  {
    var v := Prepared(s.world, e, manifest, drafts);
    assert v.log == s.world.log && v.tokens == s.world.tokens;
    forall f ensures SaveCalled(v, f) <==> SaveCalled(s.world, f) {
    }
  }

  lemma DecideKeepsInv(s: State, e: Event, submit: bool)
    requires Inv(s)
    ensures Inv(s.(world := Decided(s.world, e, submit)))
  {
    if e in s.world.rows && s.world.rows[e].status == AwaitingApproval {
      var r := s.world.rows[e].(status := if submit then Approved else Declined, submit := Some(submit));
      assert s.world.rows[e].submit != Some(true);
      UndecidedIsIdle(s, e);
      DecisionOk(s, e, r);
    }
  }

  /** Nobody works on a row that waits for its decision. */
  lemma UndecidedIsIdle(s: State, e: Event)
    requires Inv(s) && e in s.world.rows && s.world.rows[e].status == AwaitingApproval
    ensures forall p | p in s.workers :: s.workers[p].event != e
    ensures forall i | 0 <= i < |s.world.log| :: s.world.log[i].event != e
  {
    assert RowInv(s.world, e, s.world.rows[e]);
    forall p | p in s.workers ensures s.workers[p].event != e {
      assert WorkerInv(s.world, s.workers[p]);
    }
  }

  lemma DecisionOk(s: State, e: Event, r: Row)
    requires Inv(s) && e in s.world.rows && s.world.rows[e].status == AwaitingApproval
    requires forall p | p in s.workers :: s.workers[p].event != e
    requires forall i | 0 <= i < |s.world.log| :: s.world.log[i].event != e
    requires r == s.world.rows[e].(status := r.status, submit := r.submit)
    requires r.status == Approved || r.status == Declined
    requires r.submit == Some(r.status == Approved)
    ensures Inv(s.(world := Updated(s.world, e, r)))
  {
    var v := Updated(s.world, e, r);
    assert v.log == s.world.log && v.tokens == s.world.tokens;
    forall f ensures SaveCalled(v, f) <==> SaveCalled(s.world, f) {
    }
    forall f | f in v.rows ensures RowInv(v, f, v.rows[f]) {
      assert RowInv(s.world, f, s.world.rows[f]);
    }
  }

  lemma {:induction false} AfterKeepsInv(s: State, run: seq<Action>)
    requires Inv(s)
    ensures Inv(After(s, run))
    decreases |run|
  {
    if run != [] {
      NextKeepsInv(s, run[0]);
      AfterKeepsInv(Next(s, run[0]), run[1..]);
    }
  }

  lemma InitialInv(s: State)
    requires Initial(s)
    ensures Inv(s)
  {
  }

  /** Whatever crashes, leases and lost responses do, Moodle's save is called at most once per event. */
  lemma {:induction false} SavedAtMostOnce(initial: State, run: seq<Action>)
    requires Initial(initial)
    ensures var log := After(initial, run).world.log;
      forall i, j | 0 <= i < j < |log| && log[i].SaveCall? && log[j].SaveCall? :: log[i].event != log[j].event
  {
    InitialInv(initial);
    AfterKeepsInv(initial, run);
  }

  /** Every call concerns the manifest of a row on which a human decided to submit. */
  lemma {:induction false} CallsAreApproved(initial: State, run: seq<Action>)
    requires Initial(initial)
    ensures var w := After(initial, run).world;
      forall i | 0 <= i < |w.log| ::
        && w.log[i].event in w.rows
        && w.rows[w.log[i].event].manifest == w.log[i].manifest
        && w.rows[w.log[i].event].submit == Some(true)
  {
    InitialInv(initial);
    AfterKeepsInv(initial, run);
    var w := After(initial, run).world;
    forall i | 0 <= i < |w.log|
      ensures w.log[i].event in w.rows && w.rows[w.log[i].event].manifest == w.log[i].manifest
      ensures w.rows[w.log[i].event].submit == Some(true)
    {
      assert Approves(w, w.log[i].event, w.log[i].manifest);
    }
  }

  /** A submitted row has the decision, and its receipt is one that a verification of its manifest returned. */
  lemma {:induction false} SubmittedIsVerified(initial: State, run: seq<Action>, e: Event)
    requires Initial(initial)
    requires e in After(initial, run).world.rows && After(initial, run).world.rows[e].status == Submitted
    ensures var w := After(initial, run).world;
      && w.rows[e].submit == Some(true)
      && w.rows[e].receipt.Some?
      && VerifyCall(e, w.rows[e].manifest, w.rows[e].receipt) in w.log
  {
    InitialInv(initial);
    AfterKeepsInv(initial, run);
    assert RowInv(After(initial, run).world, e, After(initial, run).world.rows[e]);
  }

  /** A row, once decided, keeps its manifest and its decision whatever follows. */
  lemma {:induction false} DecisionStays(s: State, run: seq<Action>, e: Event)
    requires e in s.world.rows && s.world.rows[e].status != AwaitingApproval
    ensures var w := After(s, run).world;
      e in w.rows && w.rows[e].manifest == s.world.rows[e].manifest && w.rows[e].submit == s.world.rows[e].submit
    decreases |run|
  {
    if run != [] {
      DecisionStaysNext(s, run[0], e);
      DecisionStays(Next(s, run[0]), run[1..], e);
    }
  }

  lemma DecisionStaysNext(s: State, a: Action, e: Event)
    requires e in s.world.rows && s.world.rows[e].status != AwaitingApproval
    ensures var w := Next(s, a).world;
      && e in w.rows && w.rows[e].status != AwaitingApproval
      && w.rows[e].manifest == s.world.rows[e].manifest && w.rows[e].submit == s.world.rows[e].submit
  {
    if a.Advance? && a.pid in s.workers { StepKeepsDecision(s.world, s.workers[a.pid], a.reply, e); }
    hide Step;
  }

  lemma StepKeepsDecision(w: World, k: Worker, reply: Reply, e: Event)
    requires e in w.rows && w.rows[e].status != AwaitingApproval
    ensures var v := Step(w, k, reply).world;
      && e in v.rows && v.rows[e].status != AwaitingApproval
      && v.rows[e].manifest == w.rows[e].manifest && v.rows[e].submit == w.rows[e].submit
  {
  }

  // ----- one worker at a time

  ghost predicate Solo(s: State, run: seq<Action>)
    decreases |run|
  {
    |s.workers| <= 1 && (run != [] ==> Solo(Next(s, run[0]), run[1..]))
  }

  ghost predicate NeverTwice(w: World)
  {
    forall i | 0 <= i < |w.log| && w.log[i].FinalizeCall? :: !w.log[i].held
  }

  /** Whoever is about to finalize has just seen the draft. */
  ghost predicate SoloInv(s: State)
  {
    && NeverTwice(s.world)
    && forall p | p in s.workers && s.workers[p].phase == Finalize :: RemoteOf(s.world, s.workers[p].event) == Draft
  }

  lemma SoloStep(w: World, k: Worker, reply: Reply)
    requires NeverTwice(w) && (k.phase == Finalize ==> RemoteOf(w, k.event) == Draft)
    ensures var m := Step(w, k, reply);
      && NeverTwice(m.world)
      && (m.next.Some? && m.next.value.phase == Finalize ==> RemoteOf(m.world, m.next.value.event) == Draft)
  {
  }

  lemma TwoWorkers(workers: map<Pid, Worker>, p: Pid, q: Pid)
    requires p in workers && q in workers && p != q
    ensures |workers| >= 2
  {
    var s := workers.Keys;
    assert s == {p, q} + (s - {p, q});
    assert |s| == |workers|;
  }

  lemma SoloAdvance(s: State, pid: Pid, reply: Reply)
    requires SoloInv(s) && |s.workers| <= 1 && pid in s.workers
    ensures SoloInv(Next(s, Advance(pid, reply)))
  {
    SoloStep(s.world, s.workers[pid], reply);
    forall q | q in s.workers ensures q == pid {
      if q != pid { TwoWorkers(s.workers, q, pid); }
    }
    hide Step;
  }

  lemma SoloNext(s: State, a: Action)
    requires SoloInv(s) && |s.workers| <= 1 && |Next(s, a).workers| <= 1
    ensures SoloInv(Next(s, a))
  {
    hide Step;
    match a
    case Advance(pid, reply) =>
      if pid in s.workers { SoloAdvance(s, pid, reply); }
    case Claim(_, _, _, _) =>
      if CanClaim(s, a) { SoloClaim(s, a); }
    case _ =>
      hide Prepared, Decided, NeverTwice;
      QuietKeepsSolo(s, a);
  }

  lemma SoloClaim(s: State, a: Action)
    requires SoloInv(s) && a.Claim? && CanClaim(s, a)
    ensures SoloInv(ClaimedBy(s, a))
  {
    hide IsNext, Reopened;
    assert ClaimedBy(s, a).world.log == s.world.log && ClaimedBy(s, a).world.remote == s.world.remote;
  }

  lemma QuietKeepsSolo(s: State, a: Action)
    requires SoloInv(s) && !a.Advance? && !a.Claim?
    ensures SoloInv(Next(s, a))
  {
    hide Step, CanClaim;
    assert Next(s, a).world.log == s.world.log && Next(s, a).world.remote == s.world.remote;
  }

  lemma {:induction false} SoloKeepsInv(s: State, run: seq<Action>)
    requires SoloInv(s) && Solo(s, run)
    ensures SoloInv(After(s, run))
    decreases |run|
  {
    if run != [] {
      assert Solo(Next(s, run[0]), run[1..]);
      SoloNext(s, run[0]);
      SoloKeepsInv(Next(s, run[0]), run[1..]);
    }
  }

  /** With one worker at a time, finalize is never called once Moodle holds the submission. */
  lemma {:induction false} SoloFinalizesOnce(initial: State, run: seq<Action>)
    requires Initial(initial) && Solo(initial, run)
    ensures NeverTwice(After(initial, run).world)
  {
    SoloKeepsInv(initial, run);
  }

  // ----- any number of workers

  /** Before the worker saves, Moodle has no draft with exactly the manifest's files. */
  ghost predicate NoExactDraft(w: World)
  {
    forall e :: RemoteOf(w, e) != Draft
  }

  predicate TowardsFinalize(phase: Phase)
  {
    || phase == VerifyDraft || phase == RecordFinalizing || phase == Reconcile || phase == ReconcileDraft
    || phase == Finalize
  }

  ghost predicate KnowsDrafts(w: World, k: Worker)
  {
    && k.event in w.rows && w.rows[k.event].drafts == k.drafts
    && (TowardsFinalize(k.phase) ==> k.drafts)
  }

  ghost predicate FinalizingHasDrafts(w: World)
  {
    forall e | e in w.rows && w.rows[e].status == Finalizing :: w.rows[e].drafts
  }

  /** Only assignments with drafts are ever finalized, and every worker knows which they are. */
  ghost predicate DraftsKnown(s: State)
  {
    FinalizingHasDrafts(s.world) && forall p | p in s.workers :: KnowsDrafts(s.world, s.workers[p])
  }

  ghost predicate SameDrafts(w: World, v: World)
  {
    forall e | e in w.rows :: e in v.rows && v.rows[e].drafts == w.rows[e].drafts
  }

  lemma StepKeepsDrafts(w: World, k: Worker, reply: Reply)
    requires FinalizingHasDrafts(w) && KnowsDrafts(w, k)
    ensures var m := Step(w, k, reply);
      && FinalizingHasDrafts(m.world) && SameDrafts(w, m.world)
      && (m.next.Some? ==> KnowsDrafts(m.world, m.next.value))
  {
    if IsTransaction(k.phase) {
      TransactionKeepsDrafts(w, k, reply);
    } else {
      CallKeepsDrafts(w, k, reply);
    }
    hide Step;
  }

  predicate IsTransaction(phase: Phase)
  {
    phase.RecordDraft? || phase == RecordFinalizing || phase.Complete? || phase == Fail
  }

  lemma TransactionKeepsDrafts(w: World, k: Worker, reply: Reply)
    requires FinalizingHasDrafts(w) && KnowsDrafts(w, k) && IsTransaction(k.phase)
    ensures var m := Step(w, k, reply);
      && FinalizingHasDrafts(m.world) && SameDrafts(w, m.world)
      && (m.next.Some? ==> KnowsDrafts(m.world, m.next.value))
  {
    hide Uploaded, Saved, DraftChecked, Verified, Finalized;
  }

  lemma CallKeepsDrafts(w: World, k: Worker, reply: Reply)
    requires KnowsDrafts(w, k) && !IsTransaction(k.phase)
    ensures var m := Step(w, k, reply);
      m.world.rows == w.rows && (m.next.Some? ==> KnowsDrafts(m.world, m.next.value))
  {
    hide Recording, RecordingFinalizing, Completing, Failing;
  }

  lemma AdvanceKeepsDrafts(s: State, pid: Pid, reply: Reply)
    requires DraftsKnown(s) && pid in s.workers
    ensures DraftsKnown(Next(s, Advance(pid, reply)))
  {
    StepKeepsDrafts(s.world, s.workers[pid], reply);
    hide Step, FinalizingHasDrafts;
  }

  lemma ClaimKeepsDrafts(s: State, a: Action)
    requires DraftsKnown(s) && a.Claim? && CanClaim(s, a)
    ensures DraftsKnown(ClaimedBy(s, a))
  {
    var v := ClaimedBy(s, a).world;
    hide Step, IsNext;
    forall e | e in s.world.rows
      ensures e in v.rows && v.rows[e].drafts == s.world.rows[e].drafts
      ensures v.rows[e].status == Finalizing ==> v.rows[e].drafts
    {
    }
    hide Claimed;
  }

  lemma NextKeepsDrafts(s: State, a: Action)
    requires DraftsKnown(s)
    ensures DraftsKnown(Next(s, a))
  {
    hide Step, CanClaim, ClaimedBy;
    match a
    case Claim(_, _, _, _) => if CanClaim(s, a) { ClaimKeepsDrafts(s, a); }
    case Advance(pid, reply) => if pid in s.workers { AdvanceKeepsDrafts(s, pid, reply); }
    case _ =>
  }

  lemma {:induction false} AfterKeepsDrafts(s: State, run: seq<Action>)
    requires DraftsKnown(s)
    ensures DraftsKnown(After(s, run))
    decreases |run|
  {
    if run != [] {
      NextKeepsDrafts(s, run[0]);
      AfterKeepsDrafts(Next(s, run[0]), run[1..]);
    }
  }

  ghost predicate DraftsSaved(w: World)
  {
    forall e | RemoteOf(w, e) == Draft :: SaveCalled(w, e)
  }

  lemma SaveStaysCalled(w: World, v: World, e: Event)
    requires w.log <= v.log && SaveCalled(w, e)
    ensures SaveCalled(v, e)
  {
    var i :| 0 <= i < |w.log| && w.log[i].SaveCall? && w.log[i].event == e;
    assert v.log[i] == w.log[i];
  }

  /** A step changes what Moodle holds for the worker's own event, by a save or a finalize. */
  lemma StepRemote(w: World, k: Worker, reply: Reply)
    ensures var v := Step(w, k, reply).world;
      && w.log <= v.log
      && (forall e | e != k.event :: RemoteOf(v, e) == RemoteOf(w, e))
      && (k.phase != Save && k.phase != Finalize ==> RemoteOf(v, k.event) == RemoteOf(w, k.event))
      && (k.phase == Finalize ==> RemoteOf(v, k.event) == if Applied(reply) then Held else RemoteOf(w, k.event))
      && (k.phase == Save ==>
            && v.log == w.log + [SaveCall(k.event, k.manifest)]
            && (k.drafts ==> RemoteOf(v, k.event) == if Applied(reply) then Draft else RemoteOf(w, k.event)))
  {
  }

  lemma QuietRemote(s: State, a: Action)
    requires !a.Advance? || a.pid !in s.workers
    ensures Next(s, a).world.remote == s.world.remote && Next(s, a).world.log == s.world.log
  {
    hide Step, CanClaim;
  }

  lemma NextKeepsDraftsSaved(s: State, a: Action)
    requires DraftsSaved(s.world)
    ensures DraftsSaved(Next(s, a).world)
  {
    var w, v := s.world, Next(s, a).world;
    if a.Advance? && a.pid in s.workers {
      var k := s.workers[a.pid];
      StepRemote(w, k, a.reply);
      forall e | RemoteOf(v, e) == Draft ensures SaveCalled(v, e) {
        if e == k.event && k.phase == Save {
          assert v.log[|w.log|] == SaveCall(k.event, k.manifest);
        } else {
          assert RemoteOf(w, e) == Draft;
          SaveStaysCalled(w, v, e);
        }
      }
    } else {
      QuietRemote(s, a);
      forall e | RemoteOf(v, e) == Draft ensures SaveCalled(v, e) {
        SaveStaysCalled(w, v, e);
      }
    }
  }

  lemma {:induction false} AfterKeepsDraftsSaved(s: State, run: seq<Action>)
    requires DraftsSaved(s.world)
    ensures DraftsSaved(After(s, run).world)
    decreases |run|
  {
    if run != [] {
      NextKeepsDraftsSaved(s, run[0]);
      AfterKeepsDraftsSaved(Next(s, run[0]), run[1..]);
    }
  }

  /** Another worker finalizes the event, and the call takes effect. */
  predicate FinalizesToo(s: State, a: Action, pid: Pid, e: Event)
  {
    && a.Advance? && a.pid != pid && a.pid in s.workers
    && s.workers[a.pid].event == e && s.workers[a.pid].phase == Finalize && Applied(a.reply)
  }

  /** Some worker saves for the event, and the call takes effect. */
  predicate Saves(s: State, a: Action, e: Event)
  {
    && a.Advance? && a.pid in s.workers
    && s.workers[a.pid].event == e && s.workers[a.pid].phase == Save && Applied(a.reply)
  }

  /** The worker's draft check, which finds the draft and lets it go on to finalize. */
  predicate ChecksDraft(s: State, a: Action, pid: Pid)
  {
    && a.Advance? && a.pid == pid && a.reply.Answer? && pid in s.workers
    && s.workers[pid].phase == ReconcileDraft && RemoteOf(s.world, s.workers[pid].event) == Draft
  }

  predicate LeavesAlone(a: Action, pid: Pid)
  {
    (a.Advance? || a.Crash?) ==> a.pid != pid
  }

  /** The last thing that the worker did was this draft check. */
  ghost predicate CheckedAt(initial: State, run: seq<Action>, pid: Pid, k: nat)
  {
    && k < |run| && ChecksDraft(After(initial, run[..k]), run[k], pid)
    && forall i | k < i < |run| :: LeavesAlone(run[i], pid)
  }

  /** Another worker's finalize of the event took effect after step `k`. */
  ghost predicate Overtaken(initial: State, run: seq<Action>, pid: Pid, e: Event, k: nat)
  {
    exists i | k < i < |run| :: FinalizesToo(After(initial, run[..i]), run[i], pid, e)
  }

  lemma {:induction false} AfterConcat(s: State, a: seq<Action>, b: seq<Action>)
    ensures After(s, a + b) == After(After(s, a), b)
    decreases |a|
  {
    if a == [] {
      assert a + b == b;
    } else {
      assert (a + b)[1..] == a[1..] + b;
      AfterConcat(Next(s, a[0]), a[1..], b);
    }
  }

  ghost predicate NoSaveAfter(initial: State, run: seq<Action>, e: Event, k: nat)
  {
    forall i | k < i < |run| :: !Saves(After(initial, run[..i]), run[i], e)
  }

  /** Of all that reached Moodle for the event after step `k`, another worker's finalize came last. */
  ghost predicate LastFinalized(initial: State, run: seq<Action>, pid: Pid, e: Event, k: nat)
  {
    exists i | k < i < |run| ::
      FinalizesToo(After(initial, run[..i]), run[i], pid, e) && NoSaveAfter(initial, run, e, i)
  }

  lemma {:induction false} AfterLast(s: State, run: seq<Action>)
    requires run != []
    ensures After(s, run) == Next(After(s, run[..|run| - 1]), run[|run| - 1])
  {
    var a := run[|run| - 1];
    AfterConcat(s, run[..|run| - 1], [a]);
    assert run == run[..|run| - 1] + [a] && [a][1..] == [];
    var t := After(s, run[..|run| - 1]);
    assert After(t, [a]) == After(Next(t, a), []);
  }

  lemma ComesToFinalize(s: State, a: Action, pid: Pid)
    requires pid in Next(s, a).workers && Next(s, a).workers[pid].phase == Finalize
    ensures pid in s.workers
    ensures if LeavesAlone(a, pid) then s.workers[pid] == Next(s, a).workers[pid]
            else ChecksDraft(s, a, pid) && s.workers[pid].event == Next(s, a).workers[pid].event
  {
    hide IsNext, Claimed, Prepared, Decided;
  }

  /** Whoever is about to finalize has done nothing since its draft check, which found the draft. */
  lemma {:induction false} FinalizerHasChecked(initial: State, run: seq<Action>, pid: Pid) returns (k: nat)
    requires Initial(initial)
    requires pid in After(initial, run).workers && After(initial, run).workers[pid].phase == Finalize
    ensures CheckedAt(initial, run, pid, k)
    decreases |run|
  {
    if run == [] {
      assert false;
    }
    var last := |run| - 1;
    AfterLast(initial, run);
    var s := After(initial, run[..last]);
    ComesToFinalize(s, run[last], pid);
    hide Next, After;
    if LeavesAlone(run[last], pid) {
      k := FinalizerHasChecked(initial, run[..last], pid);
      assert run[..last][..k] == run[..k];
    } else {
      k := last;
    }
  }

  /** Where there are drafts, a finalize submits and a save leaves a draft; nothing else changes what Moodle holds. */
  lemma RemoteNext(s: State, a: Action, pid: Pid, e: Event)
    requires DraftsKnown(s) && e in s.world.rows && s.world.rows[e].drafts && LeavesAlone(a, pid)
    ensures RemoteOf(Next(s, a).world, e) ==
      if FinalizesToo(s, a, pid, e) then Held else if Saves(s, a, e) then Draft else RemoteOf(s.world, e)
    ensures e in Next(s, a).world.rows && Next(s, a).world.rows[e].drafts
  {
    if a.Advance? && a.pid in s.workers {
      var k := s.workers[a.pid];
      assert KnowsDrafts(s.world, k);
      StepRemote(s.world, k, a.reply);
      StepKeepsDrafts(s.world, k, a.reply);
      hide Step;
    } else {
      QuietRemote(s, a);
      hide Step, IsNext;
    }
  }

  lemma CheckLeavesDraft(s: State, a: Action, pid: Pid)
    requires ChecksDraft(s, a, pid)
    ensures pid in Next(s, a).workers && Next(s, a).workers[pid].event == s.workers[pid].event
    ensures Next(s, a).world.remote == s.world.remote && s.world.log <= Next(s, a).world.log
    ensures Next(s, a).world.rows == s.world.rows
  {
  }

  ghost predicate PrefixesKept(run: seq<Action>)
    requires run != []
  {
    forall i | 0 <= i < |run| :: run[..|run| - 1][..i] == run[..i]
  }

  lemma {:induction false} NoSaveLast(initial: State, run: seq<Action>, e: Event, k: nat)
    requires k + 1 < |run| && PrefixesKept(run)
    ensures var last := |run| - 1;
      NoSaveAfter(initial, run, e, k) <==>
        NoSaveAfter(initial, run[..last], e, k) && !Saves(After(initial, run[..last]), run[last], e)
  {
    var last := |run| - 1;
    hide Saves, After;
    if NoSaveAfter(initial, run[..last], e, k) && !Saves(After(initial, run[..last]), run[last], e) {
      forall i | k < i < |run| ensures !Saves(After(initial, run[..i]), run[i], e) {
        if i < last { assert !Saves(After(initial, run[..last][..i]), run[..last][i], e); }
      }
    }
    if NoSaveAfter(initial, run, e, k) {
      forall i | k < i < last ensures !Saves(After(initial, run[..last][..i]), run[..last][i], e) {
        assert !Saves(After(initial, run[..i]), run[i], e);
      }
    }
  }

  lemma {:induction false} LastFinalizedLast(initial: State, run: seq<Action>, pid: Pid, e: Event, k: nat)
    requires k + 1 < |run|
    ensures var last := |run| - 1;
      var s, a := After(initial, run[..last]), run[last];
      LastFinalized(initial, run, pid, e, k) <==>
        FinalizesToo(s, a, pid, e) || (LastFinalized(initial, run[..last], pid, e, k) && !Saves(s, a, e))
  {
    var last := |run| - 1;
    assert PrefixesKept(run);
    hide After, NoSaveAfter;
    if LastFinalized(initial, run, pid, e, k) {
      var i :| k < i < |run| && FinalizesToo(After(initial, run[..i]), run[i], pid, e)
        && NoSaveAfter(initial, run, e, i);
      if i < last {
        NoSaveLast(initial, run, e, i);
        assert FinalizesToo(After(initial, run[..last][..i]), run[..last][i], pid, e);
      }
    }
    if FinalizesToo(After(initial, run[..last]), run[last], pid, e) {
      NothingAfterLast(initial, run, e);
    } else if LastFinalized(initial, run[..last], pid, e, k) && !Saves(After(initial, run[..last]), run[last], e) {
      var i :| k < i < last && FinalizesToo(After(initial, run[..last][..i]), run[..last][i], pid, e)
        && NoSaveAfter(initial, run[..last], e, i);
      NoSaveLast(initial, run, e, i);
      assert FinalizesToo(After(initial, run[..i]), run[i], pid, e);
    }
  }

  lemma NothingAfterLast(initial: State, run: seq<Action>, e: Event)
    requires run != []
    ensures NoSaveAfter(initial, run, e, |run| - 1)
  {
  }

  lemma {:induction false} HeldIffLastFinalized(initial: State, run: seq<Action>, pid: Pid, k: nat)
    requires DraftsKnown(initial) && CheckedAt(initial, run, pid, k)
    ensures var e, w := After(initial, run[..k]).workers[pid].event, After(initial, run).world;
      && e in w.rows && w.rows[e].drafts
      && RemoteOf(w, e) == if LastFinalized(initial, run, pid, e, k) then Held else Draft
    decreases |run|
  {
    var last := |run| - 1;
    var e := After(initial, run[..k]).workers[pid].event;
    var s := After(initial, run[..last]);
    AfterLast(initial, run);
    AfterKeepsDrafts(initial, run[..last]);
    if k == last {
      hide After;
      assert KnowsDrafts(s.world, s.workers[pid]);
      CheckLeavesDraft(s, run[k], pid);
      hide Next;
    } else {
      assert run[..last][..k] == run[..k];
      LastFinalizedLast(initial, run, pid, e, k);
      hide After, DraftsKnown, Next, LastFinalized;
      HeldIffLastFinalized(initial, run[..last], pid, k);
      RemoteNext(s, run[last], pid, e);
    }
  }

  /** What a finalize call of this worker would log. */
  ghost predicate Logs(s: State, pid: Pid, held: bool)
    requires pid in s.workers
  {
    forall reply :: Next(s, Advance(pid, reply)).world.log ==
      s.world.log + [FinalizeCall(s.workers[pid].event, s.workers[pid].manifest, held)]
  }

  /**
   A finalize call meets a submission that Moodle already holds exactly if, of all that reached
   Moodle for the event after this worker's draft check, another worker's finalize came last.
   */
  lemma {:induction false} FinalizeMeetsHeldIff(initial: State, run: seq<Action>, pid: Pid) returns (k: nat)
    requires Initial(initial)
    requires pid in After(initial, run).workers && After(initial, run).workers[pid].phase == Finalize
    ensures CheckedAt(initial, run, pid, k)
    ensures var s := After(initial, run);
      Logs(s, pid, LastFinalized(initial, run, pid, s.workers[pid].event, k))
  {
    k := FinalizerHasChecked(initial, run, pid);
    HeldIffLastFinalized(initial, run, pid, k);
    EventKept(initial, run, pid, k);
    hide After, LastFinalized, CheckedAt;
  }

  // ----- no save comes late

  lemma {:induction false} SaveStaysCalledAfter(s: State, run: seq<Action>, e: Event)
    requires SaveCalled(s.world, e)
    ensures SaveCalled(After(s, run).world, e)
    decreases |run|
  {
    if run != [] {
      var a := run[0];
      if a.Advance? && a.pid in s.workers {
        StepRemote(s.world, s.workers[a.pid], a.reply);
      } else {
        QuietRemote(s, a);
      }
      SaveStaysCalled(s.world, Next(s, a).world, e);
      SaveStaysCalledAfter(Next(s, a), run[1..], e);
    }
  }

  /** Once a worker has found the draft, the event's one save has been called. */
  lemma {:induction false} NoSaveAfterCheck(initial: State, run: seq<Action>, pid: Pid, k: nat)
    requires Initial(initial) && NoExactDraft(initial.world) && CheckedAt(initial, run, pid, k)
    ensures NoSaveAfter(initial, run, After(initial, run[..k]).workers[pid].event, k)
  {
    var s := After(initial, run[..k]);
    var e := s.workers[pid].event;
    InitialInv(initial);
    AfterKeepsDraftsSaved(initial, run[..k]);
    assert SaveCalled(s.world, e);
    forall i | k < i < |run| ensures !Saves(After(initial, run[..i]), run[i], e) {
      var t := After(initial, run[..i]);
      assert run[..k] + run[k..i] == run[..i];
      AfterConcat(initial, run[..k], run[k..i]);
      SaveStaysCalledAfter(s, run[k..i], e);
      AfterKeepsInv(initial, run[..i]);
      assert forall p | p in t.workers :: WorkerInv(t.world, t.workers[p]);
    }
  }

  /**
   Where Moodle had no exact draft before, that is so exactly if another worker's finalize of the
   event took effect after this worker's draft check.
   */
  lemma {:induction false} FinalizeMeetsHeldIffOvertaken(initial: State, run: seq<Action>, pid: Pid) returns (k: nat)
    requires Initial(initial) && NoExactDraft(initial.world)
    requires pid in After(initial, run).workers && After(initial, run).workers[pid].phase == Finalize
    ensures CheckedAt(initial, run, pid, k)
    ensures var s := After(initial, run);
      Logs(s, pid, Overtaken(initial, run, pid, s.workers[pid].event, k))
  {
    k := FinalizeMeetsHeldIff(initial, run, pid);
    NoSaveAfterCheck(initial, run, pid, k);
    EventKept(initial, run, pid, k);
    var e := After(initial, run).workers[pid].event;
    assert LastFinalized(initial, run, pid, e, k) <==> Overtaken(initial, run, pid, e, k) by {
      hide After, FinalizesToo, Saves;
      if Overtaken(initial, run, pid, e, k) {
        var i :| k < i < |run| && FinalizesToo(After(initial, run[..i]), run[i], pid, e);
        assert NoSaveAfter(initial, run, e, i);
      }
    }
  }

  lemma {:induction false} EventKept(initial: State, run: seq<Action>, pid: Pid, k: nat)
    requires CheckedAt(initial, run, pid, k)
    ensures pid in After(initial, run).workers
    ensures After(initial, run).workers[pid].event == After(initial, run[..k]).workers[pid].event
    decreases |run|
  {
    var last := |run| - 1;
    AfterLast(initial, run);
    if k == last {
      CheckLeavesDraft(After(initial, run[..k]), run[k], pid);
    } else {
      assert run[..last][..k] == run[..k];
      EventKept(initial, run[..last], pid, k);
      hide After;
      LeftAlone(After(initial, run[..last]), run[last], pid);
    }
  }

  lemma LeftAlone(s: State, a: Action, pid: Pid)
    requires pid in s.workers && LeavesAlone(a, pid)
    ensures pid in Next(s, a).workers && Next(s, a).workers[pid] == s.workers[pid]
  {
    hide Step, IsNext, Claimed, Prepared, Decided;
  }

  // ----- two workers

  const START: State := State(World(0, map[], map[], {}, []), map[])

  const ROW := Row(7, true, 0, Uploading, Some(true), Some(Lease(1, 6)), None, None)

  const SAVED_LOG := [UploadCall(1, 7), SaveCall(1, 7)]

  const CHECKED_LOG := SAVED_LOG + [VerifyDraftCall(1, 7), VerifyCall(1, 7, None)]

  const CLAIMED: State := State(World(0, map[1 := ROW], map[], {1}, []), map[1 := Worker(1, 7, true, 1, Upload)])

  const DRAFTED: State := State(
    World(0, map[1 := ROW.(status := Saving, draft := Some(5))], map[1 := Draft], {1}, SAVED_LOG),
    map[1 := Worker(1, 7, true, 1, VerifyDraft)])

  const RECONCILED: State := State(
    World(0, map[1 := ROW.(status := Finalizing, draft := Some(5))], map[1 := Draft], {1}, CHECKED_LOG),
    map[1 := Worker(1, 7, true, 1, ReconcileDraft)])

  /** The worker is about to finalize when it falls asleep until its lease has run out. */
  const PAUSED: State := State(
    World(6, map[1 := ROW.(status := Finalizing, draft := Some(5))], map[1 := Draft], {1},
          CHECKED_LOG + [VerifyDraftCall(1, 7)]),
    map[1 := Worker(1, 7, true, 1, Finalize)])

  /** A second worker has taken the row over, has seen that Moodle has only the draft, and is about to finalize too. */
  const TAKEN_OVER: State := State(
    World(6, map[1 := ROW.(status := Finalizing, draft := Some(5), lease := Some(Lease(2, 12)))], map[1 := Draft],
          {1, 2},
          CHECKED_LOG + [VerifyDraftCall(1, 7), VerifyCall(1, 7, None), VerifyDraftCall(1, 7)]),
    map[1 := Worker(1, 7, true, 1, Finalize), 2 := Worker(1, 7, true, 2, Finalize)])

  const FIRST := Advance(1, Answer(5))

  const SECOND := Advance(2, Answer(5))

  lemma {:induction false} AfterThree(s: State, a: Action, b: Action, c: Action)
    ensures After(s, [a, b, c]) == Next(Next(Next(s, a), b), c)
  {
    hide Next;
    assert [a, b, c][1..] == [b, c] && [b, c][1..] == [c] && [c][1..] == [];
    assert After(Next(Next(Next(s, a), b), c), []) == Next(Next(Next(s, a), b), c);
    assert After(Next(Next(s, a), b), [c]) == Next(Next(Next(s, a), b), c);
    assert After(Next(s, a), [b, c]) == After(Next(Next(s, a), b), [c]);
  }

  lemma ToClaimed()
    ensures After(START, [Prepare(1, 7, true), Decide(1, true), Claim(1, 1, 1, 6)]) == CLAIMED
  {
    AfterThree(START, Prepare(1, 7, true), Decide(1, true), Claim(1, 1, 1, 6));
    hide After;
    var s2 := Next(Next(START, Prepare(1, 7, true)), Decide(1, true));
    assert s2 ==
      State(World(0, map[1 := Row(7, true, 0, Approved, Some(true), None, None, None)], map[], {}, []), map[]);
    assert CanClaim(s2, Claim(1, 1, 1, 6));
    assert Next(s2, Claim(1, 1, 1, 6)) == CLAIMED;
  }

  lemma ToDrafted()
    ensures After(CLAIMED, [FIRST, FIRST, FIRST]) == DRAFTED
  {
    AfterThree(CLAIMED, FIRST, FIRST, FIRST);
    hide After;
    var s1 := Next(CLAIMED, FIRST);
    var s2 := Next(s1, FIRST);
    assert s1 == State(World(0, map[1 := ROW], map[], {1}, [UploadCall(1, 7)]),
                       map[1 := Worker(1, 7, true, 1, RecordDraft(5))]);
    assert s2 == State(World(0, map[1 := ROW.(status := Saving, draft := Some(5))], map[], {1}, [UploadCall(1, 7)]),
                       map[1 := Worker(1, 7, true, 1, Save)]);
    assert Next(s2, FIRST) == DRAFTED;
  }

  lemma ToReconciled()
    ensures After(DRAFTED, [FIRST, FIRST, FIRST]) == RECONCILED
  {
    AfterThree(DRAFTED, FIRST, FIRST, FIRST);
    hide After;
    var s1 := Next(DRAFTED, FIRST);
    var s2 := Next(s1, FIRST);
    assert s1.workers == map[1 := Worker(1, 7, true, 1, RecordFinalizing)];
    assert s2.workers == map[1 := Worker(1, 7, true, 1, Reconcile)];
    assert s2.world.rows == map[1 := ROW.(status := Finalizing, draft := Some(5))];
    assert Next(s2, FIRST) == RECONCILED;
  }

  lemma ToPaused()
    ensures Next(Next(RECONCILED, FIRST), Tick(6)) == PAUSED
  {
    assert Next(RECONCILED, FIRST).workers == PAUSED.workers;
    assert Next(RECONCILED, FIRST).world.log == PAUSED.world.log;
  }

  lemma ToTakenOver()
    ensures After(PAUSED, [Claim(2, 1, 2, 6), SECOND, SECOND]) == TAKEN_OVER
  {
    AfterThree(PAUSED, Claim(2, 1, 2, 6), SECOND, SECOND);
    hide After;
    var s1 := Next(PAUSED, Claim(2, 1, 2, 6));
    assert CanClaim(PAUSED, Claim(2, 1, 2, 6));
    assert s1.workers == map[1 := Worker(1, 7, true, 1, Finalize), 2 := Worker(1, 7, true, 2, Reconcile)];
    assert s1.world.rows == TAKEN_OVER.world.rows;
    var s2 := Next(s1, SECOND);
    assert s2.workers[2].phase == ReconcileDraft;
    assert Next(s2, SECOND).world.log == TAKEN_OVER.world.log;
    assert Next(s2, SECOND) == TAKEN_OVER;
  }

  /** The first worker wakes up and finalizes; the second, whose lease is live, does the same. */
  lemma BothFinalize()
    ensures Owns(Next(TAKEN_OVER, FIRST).world, Next(TAKEN_OVER, FIRST).workers[2], {Finalizing})
    ensures !NeverTwice(Next(Next(TAKEN_OVER, FIRST), SECOND).world)
  {
    var t := Next(TAKEN_OVER, FIRST);
    assert RemoteOf(t.world, 1) == Held;
    assert Next(t, SECOND).world.log[|t.world.log|] == FinalizeCall(1, 7, true);
  }

  /**
   With two workers finalize can be called although Moodle already holds the submission, even by
   a worker whose lease is live: a run from an empty store that does it.
   */
  lemma TwoWorkersFinalizeTwice() returns (run: seq<Action>)
    ensures Initial(START) && !NeverTwice(After(START, run).world)
  {
    var a, b := [Prepare(1, 7, true), Decide(1, true), Claim(1, 1, 1, 6)], [FIRST, FIRST, FIRST];
    var d := [Claim(2, 1, 2, 6), SECOND, SECOND];
    ToClaimed();
    ToDrafted();
    ToReconciled();
    ToPaused();
    ToTakenOver();
    BothFinalize();
    hide Next;
    AfterConcat(START, a, b);
    AfterConcat(START, a + b, b);
    AfterPair(RECONCILED, FIRST, Tick(6));
    AfterConcat(START, a + b + b, [FIRST, Tick(6)]);
    AfterConcat(START, a + b + b + [FIRST, Tick(6)], d);
    AfterPair(TAKEN_OVER, FIRST, SECOND);
    AfterConcat(START, a + b + b + [FIRST, Tick(6)] + d, [FIRST, SECOND]);
    run := a + b + b + [FIRST, Tick(6)] + d + [FIRST, SECOND];
  }

  lemma {:induction false} AfterPair(s: State, a: Action, b: Action)
    ensures After(s, [a, b]) == Next(Next(s, a), b)
  {
    hide Next;
    assert [a, b][1..] == [b] && [b][1..] == [];
    assert After(Next(Next(s, a), b), []) == Next(Next(s, a), b);
    assert After(Next(s, a), [b]) == Next(Next(s, a), b);
  }
}
