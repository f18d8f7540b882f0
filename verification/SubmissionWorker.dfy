/**
 One worker's submission cycle as it is programmed, running alone on the store: every statement is
 one step of the submission state machine, time may pass before each of them, and the remote
 service may answer, fail, or take effect and lose the answer.
 */
module SubmissionWorker {
  import opened Options
  import opened Submission
  import opened SubmissionTheorems

  /** How a cycle ends; every error the cycle swallows ends in `Abandoned` or `OwnershipLost`. */
  datatype Outcome = Idle | Confirmed(event: Event) | Abandoned(event: Event) | OwnershipLost(event: Event)

  datatype Receipt = Receipt(reference: Reference) | NoReceipt | Unanswered

  datatype DraftCheck = Found | Missing | Unreadable

  /** The claim query: the first claimable row in the order of the query. */
  method FindNext(w: World) returns (next: Option<Event>)
    ensures next.Some? ==> IsNext(w, next.value)
    ensures next.None? ==> forall e | e in w.rows :: !Claimable(w, Reopened(w, w.rows[e]))
  {
    var todo := w.rows.Keys;
    next := None;
    while todo != {}
      invariant todo <= w.rows.Keys
      invariant next.Some? ==>
        && next.value in w.rows
        && Claimable(w, Reopened(w, w.rows[next.value]))
        && forall f | f in w.rows && f !in todo && Claimable(w, Reopened(w, w.rows[f])) ::
             Precedes(Reopened(w, w.rows[next.value]), next.value, Reopened(w, w.rows[f]), f)
      invariant next.None? ==> forall f | f in w.rows && f !in todo :: !Claimable(w, Reopened(w, w.rows[f]))
    {
      var e :| e in todo;
      todo := todo - {e};
      var r := Reopened(w, w.rows[e]);
      if Claimable(w, r) {
        if next.None? || !Precedes(Reopened(w, w.rows[next.value]), next.value, r, e) {
          next := Some(e);
        }
      }
    }
  }

  /** What the remote service makes of a call. */
  method Respond() returns (reply: Reply)
    ensures reply.Answer? || reply.Error?
  {
    var answered, applied, value: nat := *, *, *;
    reply := if answered then Answer(value) else Error(applied);
  }

  class SubmissionWorker {
    var state: State
    const pid: Pid

    /** Where the worker started, and all that has happened since. */
    ghost const start: State
    ghost var run: seq<Action>

    constructor (s: State, p: Pid)
      ensures state == s && pid == p && start == s && run == [] && Valid()
    {
      state, pid, start, run := s, p, s, [];
    }

    /** What the worker has done to the state is a run of the submission state machine. */
    ghost predicate Valid()
      reads this
    {
      state == After(start, run)
    }

    /** The worker works on this row and is in this phase. */
    ghost predicate At(e: Event, drafts: bool, phase: Phase)
      reads this`state
    {
      && pid in state.workers
      && state.workers[pid].event == e && state.workers[pid].drafts == drafts && state.workers[pid].phase == phase
    }

    ghost predicate Gone()
      reads this`state
    {
      pid !in state.workers
    }

    /** One statement: time passes, then the step takes effect. */
    method Do(reply: Reply, e: Event, drafts: bool, phase: Phase)
      requires Valid() && At(e, drafts, phase)
      modifies this
      ensures Valid()
      ensures var w := old(state).world.(clock := state.world.clock);
        state == Resumed(old(state), pid, Step(w, old(state).workers[pid], reply))
    {
      var moment: nat :| state.world.clock <= moment;
      var w := state.world.(clock := moment);
      StepKeepsClock(w, state.workers[pid], reply);
      AfterAppend(start, run, Tick(moment));
      AfterAppend(start, run + [Tick(moment)], Advance(pid, reply));
      run := run + [Tick(moment)] + [Advance(pid, reply)];
      state := Resumed(state, pid, Step(w, state.workers[pid], reply));
    }

    method Upload(e: Event, drafts: bool) returns (item: Option<nat>)
      requires Valid() && At(e, drafts, Phase.Upload)
      modifies this
      ensures Valid()
      ensures At(e, drafts, if item.Some? then RecordDraft(item.value) else Fail)
    {
      var reply := Respond();
      Do(reply, e, drafts, Phase.Upload);
      item := if reply.Answer? then Some(reply.value) else None;
    }

    method RecordSubmissionDraft(e: Event, drafts: bool, item: nat) returns (persisted: bool)
      requires Valid() && At(e, drafts, RecordDraft(item))
      modifies this
      ensures Valid()
      ensures if persisted then At(e, drafts, Phase.Save) else Gone()
    {
      Do(Answer(0), e, drafts, RecordDraft(item));
      persisted := pid in state.workers;
    }

    method Save(e: Event, drafts: bool) returns (raised: bool)
      requires Valid() && At(e, drafts, Phase.Save)
      modifies this
      ensures Valid()
      ensures At(e, drafts, if drafts then Phase.VerifyDraft else VerifySaved)
    {
      var reply := Respond();
      Do(reply, e, drafts, Phase.Save);
      raised := reply.Error?;
    }

    method VerifyDraft(e: Event, drafts: bool, phase: Phase) returns (check: DraftCheck)
      requires Valid() && At(e, drafts, phase)
        && (phase == Phase.VerifyDraft || phase == ReconcileDraft || phase == VerifyDraftLost)
      modifies this
      ensures Valid()
      ensures At(e, drafts,
                 if check != Found || phase == VerifyDraftLost then Fail
                 else if phase == Phase.VerifyDraft then RecordFinalizing else Phase.Finalize)
    {
      var reply := Respond();
      var held := RemoteOf(state.world, e);
      Do(reply, e, drafts, phase);
      check := if reply.Error? then Unreadable else if held == Draft then Found else Missing;
    }

    method Verify(e: Event, drafts: bool, phase: Phase) returns (receipt: Receipt)
      requires Valid() && At(e, drafts, phase)
      requires phase == VerifySaved || phase == Reconcile || phase == VerifyFinal || phase == VerifyLost
      modifies this
      ensures Valid()
      ensures At(e, drafts,
                 if receipt.Receipt? then Complete(receipt.reference)
                 else if receipt.Unanswered? then Fail
                 else if phase == Reconcile then ReconcileDraft
                 else if phase == VerifyLost then VerifyDraftLost else Fail)
    {
      var reply := Respond();
      var held := RemoteOf(state.world, e);
      Do(reply, e, drafts, phase);
      receipt := if reply.Error? then Unanswered else if held == Held then Receipt(reply.value) else NoReceipt;
    }

    method RecordSubmissionFinalizing(e: Event, drafts: bool) returns (recorded: bool)
      requires Valid() && At(e, drafts, RecordFinalizing)
      modifies this
      ensures Valid()
      ensures if recorded then At(e, drafts, Reconcile) else Gone()
    {
      Do(Answer(0), e, drafts, RecordFinalizing);
      recorded := pid in state.workers;
    }

    method Finalize(e: Event, drafts: bool) returns (raised: bool)
      requires Valid() && At(e, drafts, Phase.Finalize)
      modifies this
      ensures Valid()
      ensures At(e, drafts, if raised then VerifyLost else VerifyFinal)
    {
      var reply := Respond();
      Do(reply, e, drafts, Phase.Finalize);
      raised := reply.Error?;
    }

    method CompleteSubmission(e: Event, drafts: bool, reference: Reference)
      returns (outcome: Outcome)
      requires Valid() && At(e, drafts, Complete(reference))
      modifies this
      ensures Valid() && Gone()
      ensures outcome == Confirmed(e) || outcome == OwnershipLost(e)
      ensures outcome.Confirmed? ==> e in state.world.rows && state.world.rows[e].status == Submitted
    {
      var rows := state.world.rows;
      Do(Answer(0), e, drafts, Complete(reference));
      outcome := if state.world.rows != rows then Confirmed(e) else OwnershipLost(e);
    }

    method FailSubmission(e: Event, drafts: bool) returns (outcome: Outcome)
      requires Valid() && At(e, drafts, Fail)
      modifies this
      ensures Valid() && Gone()
      ensures outcome == Abandoned(e) || outcome == OwnershipLost(e)
      ensures outcome.Abandoned? ==> e in state.world.rows && state.world.rows[e].status == Failed
    {
      var rows := state.world.rows;
      Do(Answer(0), e, drafts, Fail);
      outcome := if state.world.rows != rows then Abandoned(e) else OwnershipLost(e);
    }

    ghost predicate Ends(e: Event, outcome: Outcome)
      reads this`state
    {
      && Gone()
      && !outcome.Idle? && outcome.event == e
      && (outcome.Confirmed? ==> e in state.world.rows && state.world.rows[e].status == Submitted)
      && (outcome.Abandoned? ==> e in state.world.rows && state.world.rows[e].status == Failed)
    }

    /** Reconcile first, so that a recovery never submits twice; then check the draft, finalize, verify. */
    method FinalizeSubmission(e: Event, drafts: bool) returns (outcome: Outcome)
      requires Valid() && At(e, drafts, Reconcile)
      modifies this
      ensures Valid() && Ends(e, outcome)
    {
      var receipt := Verify(e, drafts, Reconcile);
      if receipt.Receipt? {
        outcome := CompleteSubmission(e, drafts, receipt.reference);
        return;
      }
      if receipt.NoReceipt? {
        var check := VerifyDraft(e, drafts, ReconcileDraft);
        if check == Found {
          var raised := Finalize(e, drafts);
          if raised {
            receipt := Verify(e, drafts, VerifyLost);
            if receipt.Receipt? {
              outcome := CompleteSubmission(e, drafts, receipt.reference);
              return;
            }
            if receipt.NoReceipt? { check := VerifyDraft(e, drafts, VerifyDraftLost); }
          } else {
            receipt := Verify(e, drafts, VerifyFinal);
            if receipt.Receipt? {
              outcome := CompleteSubmission(e, drafts, receipt.reference);
              return;
            }
          }
        }
      }
      outcome := FailSubmission(e, drafts);
    }

    /** Check the saved draft and go on to finalize it. */
    method ContinueDraft(e: Event) returns (outcome: Outcome)
      requires Valid() && At(e, true, Phase.VerifyDraft)
      modifies this
      ensures Valid() && Ends(e, outcome)
    {
      var check := VerifyDraft(e, true, Phase.VerifyDraft);
      if check != Found {
        outcome := FailSubmission(e, true);
        return;
      }
      var recorded := RecordSubmissionFinalizing(e, true);
      if !recorded { return OwnershipLost(e); }
      outcome := FinalizeSubmission(e, true);
    }

    /** Verify a submission without drafts. */
    method ConfirmSaved(e: Event) returns (outcome: Outcome)
      requires Valid() && At(e, false, VerifySaved)
      modifies this
      ensures Valid() && Ends(e, outcome)
    {
      var receipt := Verify(e, false, VerifySaved);
      if receipt.Receipt? {
        outcome := CompleteSubmission(e, false, receipt.reference);
      } else {
        outcome := FailSubmission(e, false);
      }
    }

    /** Claim the next submission and carry it as far as it goes; an uncertain save is never repeated. */
    method ProcessSubmission(token: Token, seconds: nat) returns (outcome: Outcome)
      requires Valid() && Gone() && token !in state.world.tokens && 6 <= seconds <= 3600
      modifies this
      ensures Valid() && Gone()
      ensures outcome.Idle? ==> state == old(state) && forall e | e in state.world.rows ::
        !Claimable(state.world, Reopened(state.world, state.world.rows[e]))
      ensures !outcome.Idle? ==> IsNext(old(state).world, outcome.event) && Ends(outcome.event, outcome)
    {
      var next := FindNext(state.world);
      if next.None? { return Idle; }
      var e := next.value;
      var claimed := Reopened(state.world, state.world.rows[e]);
      AfterAppend(start, run, Claim(pid, e, token, seconds));
      run := run + [Claim(pid, e, token, seconds)];
      state := ClaimedBy(state, Claim(pid, e, token, seconds));
      if claimed.status == Saving {
        if claimed.drafts {
          outcome := ContinueDraft(e);
        } else {
          outcome := ConfirmSaved(e);
        }
        return;
      }
      if claimed.status == Finalizing {
        outcome := FinalizeSubmission(e, claimed.drafts);
        return;
      }
      var item := Upload(e, claimed.drafts);
      if item.None? {
        outcome := FailSubmission(e, claimed.drafts);
        return;
      }
      var persisted := RecordSubmissionDraft(e, claimed.drafts, item.value);
      if !persisted { return OwnershipLost(e); }
      var raised := Save(e, claimed.drafts);
      if claimed.drafts {
        outcome := ContinueDraft(e);
      } else {
        outcome := ConfirmSaved(e);
      }
    }
  }

  lemma {:induction false} AfterAppend(s: State, run: seq<Action>, a: Action)
    ensures After(s, run + [a]) == Next(After(s, run), a)
  {
    AfterConcat(s, run, [a]);
    hide Next;
    assert [a][1..] == [];
    assert After(Next(After(s, run), a), []) == Next(After(s, run), a);
  }

  lemma StepKeepsClock(w: World, k: Worker, reply: Reply)
    ensures Step(w, k, reply).world.clock == w.clock
  {
  }
}
