/** How turns end: what evaluate does, in terms of the log and of what the client did, and that the
    actor never sleeps over something it would do. */
module Endings {
  import opened Harness
  import opened Mirrors
  import opened MirrorLog
  import opened Gates
  import opened Ops
  import opened SessionSteps
  import opened SessionRuns
  import opened Replicas
  import opened NormalEnd
  import opened CancelLimits
  import opened Prompts
  import opened Outcomes
  import Answers
  import AbortBound

  // ---- what the turn waits for ----

  /** What the current turn waits for, the actor has not seen. */
  ghost predicate Unseen(m: Machine) {
    m.applied <= |m.log| ==> forall id | id in Waits(m.s.turns) :: Input(id, External) !in m.log[..m.applied]
  }

  lemma ItemUnseen(m: Machine, ids: seq<OpId>, calls: seq<CallId>)
    requires Unseen(m) && Replicated(m) && m.s.events != [] && m.s.events[0].EvItem?
    ensures Unseen(Popped(m, ids, calls))
  {
    var item, y := m.s.events[0].item, Popped(m, ids, calls);
    ItemsHead(m.s.events);
    assert m.log[m.applied..][0] == m.log[m.applied] == item;
    assert m.log[..m.applied + 1] == m.log[..m.applied] + [item];
    ItemIsHeard(m.s.(events := m.s.events[1..]), item);
  }

  lemma ItemIsHeard(s: Session, item: Item)
    ensures Waits(HandledItem(s, item).turns) <= Waits(s.turns)
    ensures item.Input? ==> item.id !in Waits(HandledItem(s, item).turns)
  {
  }

  lemma NewInputsAreUnseen(m: Machine, id: InputId)
    requires Ledger(m) && m.applied <= |m.log| && id !in m.used
    ensures Input(id, External) !in m.log[..m.applied]
  {
    assert forall j | 0 <= j < m.applied :: m.log[..m.applied][j] == m.log[j];
  }

  lemma OthersUnseen(m: Machine, y: Machine, more: set<InputId>)
    requires Unseen(m) && m.applied <= |m.log| && y.applied == m.applied && m.log <= y.log
    requires Waits(y.s.turns) <= Waits(m.s.turns) + more
    requires forall id | id in more :: Input(id, External) !in m.log[..m.applied]
    ensures Unseen(y)
  {
    assert y.log[..m.applied] == m.log[..m.applied];
  }

  lemma PromptUnseen(m: Machine, id: InputId)
    requires Unseen(m) && Books(m) && Enabled(m, Prompt(id))
    ensures Unseen(TakePrompt(m, id))
  {
    if id !in m.s.index.inputs {
      NewInputsAreUnseen(m, id);
      OthersUnseen(m, TakePrompt(m, id), {id});
    }
  }

  lemma AbortWaits(s: Session)
    ensures Waits(AbortMarks(s).turns) <= Waits(s.turns)
  {
  }

  lemma DisturbedWaits(m: Machine, step: Step)
    requires Disturbs(m, step)
    ensures Waits(After(m, step).s.turns) <= Waits(m.s.turns)
  {
    if step.Abort? {
      AbortWaits(m.s);
    } else {
      var s := m.s.(events := m.s.events[1..]);
      AbortWaits(Noted(s, m.s.events[0].code));
      assert After(m, step).s == HandledError(s, m.s.events[0].code);
    }
  }

  lemma StepUnseen(m: Machine, step: Step)
    requires Unseen(m) && Books(m) && Enabled(m, step)
    ensures Unseen(After(m, step))
  {
    if SeesItem(m, step) {
      ItemUnseen(m, step.ids, step.calls);
    } else if step.Prompt? {
      PromptUnseen(m, step.id);
    } else {
      SeenKept(m, step);
      if Appends(step) {
        Answers.TurnsKept(m, step);
        OthersUnseen(m, After(m, step), {});
      } else if Disturbs(m, step) {
        DisturbedWaits(m, step);
        OthersUnseen(m, After(m, step), {});
      } else {
        StepUndisturbed(m, step);
        if step.Steer? {
          NewInputsAreUnseen(m, step.id);
        }
        OthersUnseen(m, After(m, step), if step.Steer? then {step.id} else {});
      }
    }
  }

  lemma {:induction false} RunUnseen(m: Machine, steps: seq<Step>)
    requires Unseen(m) && Books(m) && Run(m, steps)
    ensures Unseen(Final(m, steps)) && Books(Final(m, steps))
    decreases |steps|
  {
    if steps != [] {
      StepUnseen(m, steps[0]);
      StepBooks(m, steps[0]);
      RunUnseen(After(m, steps[0]), steps[1..]);
    }
  }

  /** The current turn waits for exactly those of its inputs that the actor has not seen recorded:
      recording an input is what ends the wait for it. */
  lemma WaitsExactlyForTheUnseen(log: seq<Item>, m: Machine, k: nat, id: InputId)
    requires Reaches(Opened(log), m) && m.s.turns.current == Some(k)
    ensures m.applied <= |m.log| && k < |m.accepted|
    ensures id in m.accepted[k] ==> (id in Waits(m.s.turns) <==> Input(id, External) !in m.log[..m.applied])
  {
    OpenedBooks(log);
    assert Unseen(Opened(log));
    var steps :| Run(Opened(log), steps) && m == Final(Opened(log), steps);
    RunUnseen(Opened(log), steps);
    Answers.ReachedDisciplined(Opened(log), m);
  }

  // ---- what an abort does to the steers that wait ----

  /** Every queued steer is one the turn took. */
  predicate Owned(m: Machine) {
    m.s.turns.current.Some? && m.s.turns.current.value < |m.accepted| ==>
      forall id | id in Steers(m.s.turns) :: id in m.accepted[m.s.turns.current.value]
  }

  lemma CarriesOwned(m: Machine, y: Machine)
    requires Owned(m) && Carries(m.s.turns, y.s.turns) && y.accepted == m.accepted
    ensures Owned(y)
  {
  }

  lemma SteerOwned(m: Machine, id: InputId, interrupt: bool)
    requires Owned(m)
    ensures Owned(TakeSteer(m, id, interrupt))
  {
  }

  lemma PromptOwned(m: Machine, id: InputId)
    requires Owned(m)
    ensures Owned(TakePrompt(m, id))
  {
  }

  lemma SubmitOwned(m: Machine, id: InputId, ok: bool)
    requires Owned(m) && Enabled(m, SubmitPrompt(id, ok))
    ensures Owned(SubmittedPrompt(m, id, ok))
  {
    FinishCarries(m.s.turns, m.transit[id].turn, TurnResult(None, Some(SubmitFailed), false));
    CarriesOwned(m, SubmittedPrompt(m, id, ok));
  }

  lemma PopOwned(m: Machine, ids: seq<OpId>, calls: seq<CallId>)
    requires Owned(m) && m.s.events != []
    ensures Owned(Popped(m, ids, calls))
  {
    var s := m.s.(events := m.s.events[1..]);
    if m.s.events[0].EvItem? {
      ItemTurns(s, m.s.events[0].item);
    } else {
      HandledCarries(s, m.s.events[0], calls);
      CarriesOwned(m, Popped(m, ids, calls));
    }
  }

  lemma AbortOwned(m: Machine, ids: seq<OpId>)
    requires Owned(m)
    ensures Owned(StartedAbort(m, ids))
  {
    AbortCarries(m.s);
    CarriesOwned(m, StartedAbort(m, ids));
  }

  lemma StepOwned(m: Machine, step: Step)
    requires Owned(m) && Enabled(m, step)
    ensures Owned(After(m, step))
  {
    match step
    case Steer(id, interrupt) => SteerOwned(m, id, interrupt);
    case Prompt(id) => PromptOwned(m, id);
    case SubmitPrompt(id, ok) => SubmitOwned(m, id, ok);
    case Pop(ids, calls) => PopOwned(m, ids, calls);
    case Abort(ids) => AbortOwned(m, ids);
    case Evaluate =>
      EvaluatedCarries(m.s);
      CarriesOwned(m, EvaluatedStep(m));
    case Mark => CarriesOwned(m, After(m, Mark));
    case _ => Answers.TurnsKept(m, step);
  }

  lemma {:induction false} RunOwned(m: Machine, steps: seq<Step>)
    requires Owned(m) && Run(m, steps)
    ensures Owned(Final(m, steps))
    decreases |steps|
  {
    if steps != [] {
      StepOwned(m, steps[0]);
      RunOwned(After(m, steps[0]), steps[1..]);
    }
  }

  /** A steer that waits in its turn's queue is nowhere else: not on its way, not in the log. */
  lemma QueuedIsNowhereElse(m: Machine, k: nat, id: InputId)
    requires Books(m) && Owned(m) && Answers.Disciplined(m.s.turns) && m.s.turns.current == Some(k)
    requires id in Steers(m.s.turns)
    ensures id in Waits(m.s.turns) && id in m.used && id !in m.transit && id !in m.inbox
    ensures m.actor.Submitting? ==> id !in m.actor.steers
    ensures Input(id, External) !in m.log
    ensures forall j | m.applied <= j < |m.log| && m.log[j].Input? :: m.log[j].id != id
  {
    assert 1 <= Tally(m, id) <= 1;
    assert id !in m.submitted && id in m.accepted[k];
    assert forall j | 0 <= j < m.applied :: m.log[..m.applied][j] == m.log[j];
  }

  lemma AbortStrandsQueued(m: Machine, ids: seq<OpId>, k: nat, id: InputId)
    requires Books(m) && Owned(m) && Answers.Disciplined(m.s.turns) && m.s.turns.current == Some(k)
    requires Abortable(m.s.turns) && id in Steers(m.s.turns)
    ensures Stranded(StartedAbort(m, ids), k, id)
  {
    QueuedIsNowhereElse(m, k, id);
  }

  lemma {:induction false} StrandedIsNeverRecorded(m: Machine, steps: seq<Step>, k: nat, id: InputId)
    requires Stranded(m, k, id) && Replicated(m) && Run(m, steps) && Input(id, External) !in m.log
    ensures Input(id, External) !in Final(m, steps).log
    decreases |steps|
  {
    if steps != [] {
      StepStranded(m, steps[0], k, id);
      StepReplicated(m, steps[0]);
      if !Appends(steps[0]) {
        RecordsKept(m, steps[0]);
      }
      StrandedIsNeverRecorded(After(m, steps[0]), steps[1..], k, id);
    }
  }

  /** An abort drops the steers that wait: a steer still queued when its turn is aborted is never
      recorded, in any run, prompts included, so the model never sees it. */
  lemma AbortDropsSteers(log: seq<Item>, m: Machine, ids: seq<OpId>, id: InputId, y: Machine)
    requires Reaches(Opened(log), m) && Enabled(m, Abort(ids)) && Abortable(m.s.turns)
    requires id in Steers(m.s.turns) && Reaches(After(m, Abort(ids)), y)
    ensures Input(id, External) !in y.log
  {
    OpenedBooks(log);
    ReachedBooks(Opened(log), m);
    Answers.ReachedDisciplined(Opened(log), m);
    var steps :| Run(Opened(log), steps) && m == Final(Opened(log), steps);
    RunOwned(Opened(log), steps);
    var k := m.s.turns.current.value;
    QueuedIsNowhereElse(m, k, id);
    AbortStrandsQueued(m, ids, k, id);
    StepReplicated(m, Abort(ids));
    var later :| Run(After(m, Abort(ids)), later) && y == Final(After(m, Abort(ids)), later);
    StrandedIsNeverRecorded(After(m, Abort(ids)), later, k, id);
  }

  // ---- the calls an aborted turn waits for ----

  /** A status in the log ended call `c`. */
  ghost predicate Over(log: seq<Item>, c: CallId) {
    exists i :: 0 <= i < |log| && log[i].CallStatus? && log[i].status.callId == c && Finishes(log[i].status)
  }

  lemma OverExtends(log: seq<Item>, item: Item, c: CallId)
    ensures Over(log + [item], c) ==
            (Over(log, c) || (item.CallStatus? && item.status.callId == c && Finishes(item.status)))
  {
    var next := log + [item];
    if i :| 0 <= i < |next| && next[i].CallStatus? && next[i].status.callId == c && Finishes(next[i].status) {
      if i < |log| {
        assert log[i] == next[i];
      } else {
        assert next[i] == item;
      }
    }
    if i :| 0 <= i < |log| && log[i].CallStatus? && log[i].status.callId == c && Finishes(log[i].status) {
      assert next[i] == log[i];
    }
    assert next[|log|] == item;
  }

  lemma OverStays(a: seq<Item>, b: seq<Item>, c: CallId)
    requires a <= b && Over(a, c)
    ensures Over(b, c)
  {
    var i :| 0 <= i < |a| && a[i].CallStatus? && a[i].status.callId == c && Finishes(a[i].status);
    assert b[i] == a[i];
  }

  /** Calls that are over are known, and none of them runs. */
  ghost predicate Unsettled(log: seq<Item>, sync: MirrorState, ix: Index) {
    forall c | Over(log, c) :: c in ix.calls && c !in sync.outstanding
  }

  lemma ItemUnsettled(log: seq<Item>, sync: MirrorState, ix: Index, item: Item)
    requires Unsettled(log, sync, ix) && Sensible(ix, item)
    ensures Unsettled(log + [item], ApplyItem(sync, item), ix.Add(item))
  {
    forall c | Over(log + [item], c)
      ensures c in ix.Add(item).calls && c !in ApplyItem(sync, item).outstanding
    {
      OverExtends(log, item, c);
    }
  }

  lemma {:induction false} OpenedUnsettled(log: seq<Item>)
    requires SensibleLog(log)
    ensures Unsettled(log, Fold(log), IndexAll(NO_INDEX, log))
  {
    if log != [] {
      OpenedUnsettled(log[..|log| - 1]);
      ItemUnsettled(log[..|log| - 1], Fold(log[..|log| - 1]), IndexAll(NO_INDEX, log[..|log| - 1]), log[|log| - 1]);
      assert log == log[..|log| - 1] + [log[|log| - 1]];
    }
  }

  lemma StepUnsettled(m: Machine, step: Step)
    requires Unsettled(m.log, m.s.sync, m.s.index) && Enabled(m, step)
    ensures var y := After(m, step); Unsettled(y.log, y.s.sync, y.s.index)
  {
    if Appends(step) {
      var y := After(m, step);
      var item := y.log[|m.log|];
      assert y.log == m.log + [item] && y.s.sync == ApplyItem(m.s.sync, item) && y.s.index == m.s.index.Add(item);
      ItemUnsettled(m.log, m.s.sync, m.s.index, item);
    } else {
      RecordsKept(m, step);
    }
  }

  /** No call the current turn waits for is over, as far as the actor has seen. */
  ghost predicate Unended(m: Machine) {
    m.applied <= |m.log| ==> forall c | c in Pends(m.s.turns) :: !Over(m.log[..m.applied], c)
  }

  lemma ItemEnds(s: Session, item: Item)
    ensures Pends(HandledItem(s, item).turns) <= Pends(s.turns)
    ensures item.CallStatus? && Finishes(item.status) ==> item.status.callId !in Pends(HandledItem(s, item).turns)
  {
  }

  lemma ItemUnended(m: Machine, ids: seq<OpId>, calls: seq<CallId>)
    requires Unended(m) && Replicated(m) && m.s.events != [] && m.s.events[0].EvItem?
    ensures Unended(Popped(m, ids, calls))
  {
    var item, y := m.s.events[0].item, Popped(m, ids, calls);
    ItemsHead(m.s.events);
    assert m.log[m.applied..][0] == m.log[m.applied] == item;
    assert m.log[..m.applied + 1] == m.log[..m.applied] + [item];
    ItemEnds(m.s.(events := m.s.events[1..]), item);
    forall c | c in Pends(y.s.turns)
      ensures !Over(y.log[..y.applied], c)
    {
      OverExtends(m.log[..m.applied], item, c);
    }
  }

  lemma OthersUnended(m: Machine, y: Machine, more: set<CallId>)
    requires Unended(m) && m.applied <= |m.log| && y.applied == m.applied && m.log <= y.log
    requires Pends(y.s.turns) <= Pends(m.s.turns) + more && forall c | c in more :: !Over(m.log, c)
    ensures Unended(y)
  {
    assert y.log[..m.applied] == m.log[..m.applied];
    forall c | c in Pends(y.s.turns)
      ensures !Over(y.log[..y.applied], c)
    {
      if Over(m.log[..m.applied], c) {
        OverStays(m.log[..m.applied], m.log, c);
      }
    }
  }

  lemma AbortPends(s: Session)
    ensures Pends(AbortMarks(s).turns) <= Pends(s.turns) + s.sync.outstanding.Keys
  {
  }

  lemma DisturbedPends(m: Machine, step: Step)
    requires Disturbs(m, step)
    ensures Pends(After(m, step).s.turns) <= Pends(m.s.turns) + m.s.sync.outstanding.Keys
  {
    if step.Abort? {
      AbortPends(m.s);
    } else {
      var s := m.s.(events := m.s.events[1..]);
      AbortPends(Noted(s, m.s.events[0].code));
      assert After(m, step).s == HandledError(s, m.s.events[0].code);
    }
  }

  lemma PromptPends(m: Machine, id: InputId)
    ensures Pends(TakePrompt(m, id).s.turns) <= Pends(m.s.turns)
  {
  }

  lemma StepUnended(m: Machine, step: Step)
    requires Unended(m) && Unsettled(m.log, m.s.sync, m.s.index) && Replicated(m) && Enabled(m, step)
    ensures Unended(After(m, step))
  {
    if SeesItem(m, step) {
      ItemUnended(m, step.ids, step.calls);
    } else {
      SeenKept(m, step);
      if Appends(step) {
        Answers.TurnsKept(m, step);
        OthersUnended(m, After(m, step), {});
      } else if step.Prompt? {
        PromptPends(m, step.id);
        OthersUnended(m, After(m, step), {});
      } else if Disturbs(m, step) {
        DisturbedPends(m, step);
        OthersUnended(m, After(m, step), m.s.sync.outstanding.Keys);
      } else {
        StepUndisturbed(m, step);
        OthersUnended(m, After(m, step), {});
      }
    }
  }

  lemma {:induction false} RunUnended(m: Machine, steps: seq<Step>)
    requires Unended(m) && Unsettled(m.log, m.s.sync, m.s.index) && Replicated(m) && Run(m, steps)
    ensures Unended(Final(m, steps))
    decreases |steps|
  {
    if steps != [] {
      StepUnended(m, steps[0]);
      StepUnsettled(m, steps[0]);
      StepReplicated(m, steps[0]);
      RunUnended(After(m, steps[0]), steps[1..]);
    }
  }

  /** An aborted turn waits for no call whose end the actor has seen: so what holds its answer back,
      before the flush, are calls that have not ended by the log, and a request not answered yet. */
  lemma WaitsOnlyForTheUnended(log: seq<Item>, m: Machine, c: CallId)
    requires SensibleLog(log) && Reaches(Opened(log), m) && c in Pends(m.s.turns)
    ensures m.applied <= |m.log| && !Over(m.log[..m.applied], c)
  {
    OpenedReplicated(log);
    OpenedUnsettled(log);
    assert Unended(Opened(log));
    ReachedReplicated(Opened(log), m);
    var steps :| Run(Opened(log), steps) && m == Final(Opened(log), steps);
    RunUnended(Opened(log), steps);
  }

  // ---- what evaluate does ----

  /** The current turn `t` can be answered, by what the actor has seen: an aborted one once nothing it
      waits for runs and no request is awaited, or at the latest after the flush; any other once
      the session is idle and every input was recorded. */
  ghost predicate Due(m: Machine, t: TurnState) {
    && m.applied <= |m.log|
    && if t.cancelling then t.waitCalls == {} && (NewestAnswered(m.log[..m.applied]) || t.flushed)
       else Idle(m.log[..m.applied]) && t.unobserved == {} && t.steers == []
  }

  /** Steers wait, and there is a coordinator to take them and no request it works on. */
  ghost predicate CanSteer(m: Machine, t: TurnState) {
    m.applied <= |m.log| && !t.cancelling && t.steers != [] && NewestAnswered(m.log[..m.applied]) && m.s.gen.Some?
  }

  /** What the prompt of turn `t` is answered with, should evaluate answer it. */
  function AnswerTo(t: TurnState): Answer {
    if t.clientCancelled then StoppedWith(Some(StopCancelled))
    else if t.err.Some? then FailedWith(t.err.value)
    else if t.cancelling then FailedWith(TurnAborted)
    else StoppedWith(Some(if t.stop.Some? then t.stop.value else EndTurn))
  }

  /** Turn `k`, the current one, has got its one answer, and nothing else was answered. */
  predicate AnswersOnce(m: Machine, y: Machine, k: nat, answer: Answer) {
    && y.s.turns.current.None? && y.actor.Resting?
    && |y.s.turns.answers| == |m.s.turns.answers| + 1
    && y.s.turns.answers[..|m.s.turns.answers|] == m.s.turns.answers
    && y.s.turns.answers[|m.s.turns.answers|].0 == k
    && Respond(y.s.turns.answers[|m.s.turns.answers|].1) == answer
  }

  /** No response stops a turn as cancelled. */
  predicate Plain(ts: Turns) {
    ts.Now().Some? ==> ts.Now().value.stop != Some(StopCancelled)
  }

  lemma ItemPlain(m: Machine, step: Step)
    requires Plain(m.s.turns) && SeesItem(m, step)
    ensures Plain(After(m, step).s.turns)
  {
    var s := m.s.(events := m.s.events[1..]);
    assert After(m, step).s == HandledItem(s, m.s.events[0].item);
  }

  lemma {:induction false} RunPlain(m: Machine, steps: seq<Step>)
    requires Plain(m.s.turns) && Run(m, steps)
    ensures Plain(Final(m, steps).s.turns)
    decreases |steps|
  {
    if steps != [] {
      if SeesItem(m, steps[0]) {
        ItemPlain(m, steps[0]);
      } else if !steps[0].Prompt? {
        StepSteady(m, steps[0]);
      }
      RunPlain(After(m, steps[0]), steps[1..]);
    }
  }

  lemma ReachedPlain(log: seq<Item>, m: Machine)
    requires Reaches(Opened(log), m)
    ensures Plain(m.s.turns)
  {
    var steps :| Run(Opened(log), steps) && m == Final(Opened(log), steps);
    RunPlain(Opened(log), steps);
  }

  /** Which branch evaluate takes, by the log. */
  lemma Branches(m: Machine, k: nat)
    requires Replicated(m) && m.s.turns.current == Some(k) && k < |m.s.turns.all| && !m.s.turns.all[k].finished
    ensures var t := m.s.turns.all[k];
            && (Due(m, t) <==> Judge(m.s) == AnswerCancelled || Judge(m.s) == AnswerDone)
            && (CanSteer(m, t) <==> Judge(m.s) == SubmitSteers)
            && (t.cancelling ==> Judge(m.s) != AnswerDone) && (!t.cancelling ==> Judge(m.s) != AnswerCancelled)
  {
    InflightMeansUnanswered(m.log[..m.applied]);
    QuiescentMeansIdle(m.log[..m.applied]);
  }

  /** Evaluate does exactly what is due: it answers the current turn if and only if that can be
      answered, with one answer; otherwise it hands all the queued steers on, in order, if and only
      if they can be taken; and otherwise it leaves the session as it is. */
  lemma EvaluateDoesWhatIsDue(log: seq<Item>, m: Machine, k: nat)
    requires Reaches(Opened(log), m) && m.actor.MustEvaluate? && m.s.turns.current == Some(k)
    ensures k < |m.s.turns.all|
    ensures var t, y := m.s.turns.all[k], After(m, Evaluate);
            if Due(m, t) then AnswersOnce(m, y, k, AnswerTo(t))
            else if CanSteer(m, t) then
              && y.s == m.s.(turns := m.s.turns.Put(t.(steers := [])))
              && y.actor == if m.live.Some? then Submitting(m.live.value, t.steers) else Resting
            else y.s == m.s && y.actor.Resting?
  {
    OpenedReplicated(log);
    ReachedReplicated(Opened(log), m);
    Answers.ReachedDisciplined(Opened(log), m);
    ReachedConnected(log, m);
    ReachedPlain(log, m);
    Branches(m, k);
    if Due(m, m.s.turns.all[k]) {
      DueIsAnswered(m, k);
    }
  }

  lemma DueIsAnswered(m: Machine, k: nat)
    requires Answers.Disciplined(m.s.turns) && Plain(m.s.turns) && m.s.turns.current == Some(k)
    requires Judge(m.s) == (if m.s.turns.all[k].cancelling then AnswerCancelled else AnswerDone)
    ensures AnswersOnce(m, EvaluatedStep(m), k, AnswerTo(m.s.turns.all[k]))
  {
  }

  /** A steer is refused exactly if no turn can take one, or it would interrupt and nobody runs. A
      queued one joins its turn's steers, and the actor is woken; an interrupting one is on its way
      to the inbox of the coordinator, if that still runs. */
  lemma SteerIsAdmitted(m: Machine, id: InputId, interrupt: bool)
    ensures Steered(m.s, id, interrupt).1.Refused? <==> !Abortable(m.s.turns) || (interrupt && m.s.gen.None?)
    ensures var y := TakeSteer(m, id, interrupt);
            if !Abortable(m.s.turns) then y.s == m.s
            else if !interrupt then
              && Steers(y.s.turns) == Steers(m.s.turns) + [id] && Waits(y.s.turns) == Waits(m.s.turns) + {id}
              && y.s.events == m.s.events + [EvWake]
            else
              && Steers(y.s.turns) == Steers(m.s.turns) && Waits(y.s.turns) == Waits(m.s.turns) + {id}
              && (m.live.Some? && m.s.gen == m.live ==>
                    Enabled(y, SubmitSteer(id)) && After(y, SubmitSteer(id)).inbox == m.inbox + [id])
  {
    if Abortable(m.s.turns) {
      var t := m.s.turns.Now().value;
      var ts := Steered(m.s, id, interrupt).0.turns;
      assert ts.Now().value.unobserved == t.unobserved + {id};
    }
  }

  /** Handed-on steers reach the inbox, in order. */
  lemma {:induction false} SteersReachTheInbox(m: Machine) returns (steps: seq<Step>)
    requires m.actor.Submitting? && m.actor.steers != [] && m.live == Some(m.actor.gen)
    ensures Run(m, steps) && forall i | 0 <= i < |steps| :: steps[i].SubmitNext?
    ensures Submitted(m, Final(m, steps), m.actor.steers) && Final(m, steps).actor.Resting?
    decreases |m.actor.steers|
  {
    var y := SubmittedNext(m);
    OneSteer(m);
    RunOne(m, SubmitNext);
    if y.actor.Resting? {
      steps := [SubmitNext];
      assert m.actor.steers == [m.actor.steers[0]];
    } else {
      var more := SteersReachTheInbox(y);
      RunFirst(m, SubmitNext, more);
      steps := [SubmitNext] + more;
      SubmittedJoin(m, y, Final(y, more), m.actor.steers);
    }
  }

  lemma SubmittedJoin(m: Machine, y: Machine, z: Machine, ids: seq<InputId>)
    requires ids != [] && Submitted(m, y, [ids[0]]) && Submitted(y, z, ids[1..])
    ensures Submitted(m, z, ids)
  {
    assert ids == [ids[0]] + ids[1..];
  }

  /** `ids` came to the inbox, in order, and nothing else happened. */
  predicate Submitted(m: Machine, y: Machine, ids: seq<InputId>) {
    y.inbox == m.inbox + ids && y.submitted == m.submitted + ids && y.s == m.s && y.log == m.log
  }

  lemma OneSteer(m: Machine)
    requires m.actor.Submitting? && m.actor.steers != [] && m.live == Some(m.actor.gen)
    ensures var y, rest := SubmittedNext(m), m.actor.steers[1..];
            && Submitted(m, y, [m.actor.steers[0]]) && y.live == m.live
            && y.actor == if rest == [] then Resting else Submitting(m.actor.gen, rest)
  {
  }

  /** A prompt whose work is done is answered: once its turn is still the current one, the items seen
      are idle, its inputs are recorded and no steer waits, the next evaluation ends it, with the
      reason the responses since the prompt call for, or with the error on record, or as cancelled
      if its client cancelled it without an abort yet. */
  lemma PromptIsAnswered(log: seq<Item>, m: Machine, id: InputId, y: Machine)
    requires Reaches(Opened(log), m) && Enabled(m, Prompt(id)) && id !in m.s.index.inputs
    requires Reaches(TakePrompt(m, id), y) && y.actor.MustEvaluate? && y.s.turns.current == Some(|m.s.turns.all|)
    requires y.applied <= |y.log| && Idle(y.log[..y.applied]) && y.s.turns.Now().Some?
    requires var t := y.s.turns.Now().value; !t.cancelling && t.unobserved == {} && t.steers == []
    ensures m.applied <= y.applied
    ensures var t, z := y.s.turns.Now().value, After(y, Evaluate);
            && z.s.turns.current.None? && |z.s.turns.answers| == |y.s.turns.answers| + 1
            && var (k, r) := z.s.turns.answers[|y.s.turns.answers|];
               && k == |m.s.turns.all|
               && (if t.clientCancelled then Respond(r) == StoppedWith(Some(StopCancelled))
                   else if t.err.Some? then Respond(r) == FailedWith(t.err.value)
                   else Respond(r).StoppedWith? && Respond(r).reason.Some? &&
                        var reason := Respond(r).reason.value;
                        CallsFor(y.log[m.applied..y.applied], if reason == EndTurn then None else Some(reason)))
  {
    StopIsNewest(log, m, id, y);
    ReachedThrough(log, m, Prompt(id), y);
    EvaluateDoesWhatIsDue(log, y, |m.s.turns.all|);
  }

  lemma ReachedThrough(log: seq<Item>, m: Machine, step: Step, y: Machine)
    requires Reaches(Opened(log), m) && Enabled(m, step) && Reaches(After(m, step), y)
    ensures Reaches(Opened(log), y)
  {
    var before :| Run(Opened(log), before) && m == Final(Opened(log), before);
    var later :| Run(After(m, step), later) && y == Final(After(m, step), later);
    RunFirst(m, step, later);
    RunsJoin(Opened(log), before, [step] + later);
  }

  // ---- the actor never sleeps over it ----

  /** The actor will evaluate again: it has to, or has something to submit, or an event, an input on
      its way to the log, or the abort of the current turn is to come. */
  predicate Awake(m: Machine) {
    m.actor.MustEvaluate? || m.actor.Submitting? || m.s.events != [] || m.inbox != [] ||
    (m.s.turns.current.Some? && AbortBound.UnderWay(m, m.s.turns.current.value))
  }

  predicate Alert(m: Machine) {
    Judge(m.s) != Wait ==> Awake(m)
  }

  /** Nothing evaluate looks at changes, and what keeps the actor awake stays. */
  lemma SameAlert(m: Machine, y: Machine)
    requires Alert(m) && y.s.turns == m.s.turns && y.s.am == m.s.am && y.s.gen == m.s.gen
    requires y.actor == m.actor && (m.s.events != [] ==> y.s.events != []) && (m.inbox != [] ==> y.inbox != [])
    requires m.s.turns.current.Some? && AbortBound.UnderWay(m, m.s.turns.current.value) ==>
               AbortBound.UnderWay(y, m.s.turns.current.value)
    ensures Alert(y)
  {
  }

  lemma EvaluateAlert(m: Machine)
    requires Connected(m) && Posted(m) && m.actor.MustEvaluate?
    ensures Alert(EvaluatedStep(m))
  {
  }

  lemma PopAlert(m: Machine, ids: seq<OpId>, calls: seq<CallId>)
    requires m.s.events != [] && Answers.Disciplined(m.s.turns)
    ensures Alert(Popped(m, ids, calls))
  {
    var s, y := m.s.(events := m.s.events[1..]), Popped(m, ids, calls);
    if m.s.events[0].EvModelError? && ErrorAborts(s) {
      assert y.aborts[|m.aborts|].turn == s.turns.current.value;
    }
  }

  lemma AbortAlert(m: Machine, ids: seq<OpId>)
    requires Alert(m)
    ensures Alert(StartedAbort(m, ids))
  {
    if Abortable(m.s.turns) {
      assert StartedAbort(m, ids).aborts[|m.aborts|].turn == m.s.turns.current.value;
    }
  }

  lemma PromptAlert(m: Machine, id: InputId)
    requires Alert(m)
    ensures Alert(TakePrompt(m, id))
  {
  }

  lemma SteerAlert(m: Machine, id: InputId, interrupt: bool)
    requires Alert(m)
    ensures Alert(TakeSteer(m, id, interrupt))
  {
  }

  lemma SubmitAlert(m: Machine, id: InputId, ok: bool)
    requires Alert(m) && Enabled(m, SubmitPrompt(id, ok)) && Answers.Disciplined(m.s.turns)
    ensures Alert(SubmittedPrompt(m, id, ok))
  {
    Answers.SubmitTurns(m, id, ok);
  }

  lemma SubmitNextAlert(m: Machine)
    requires Connected(m) && m.actor.Submitting? && m.actor.steers != []
    ensures Alert(SubmittedNext(m))
  {
  }

  lemma MarkAlert(m: Machine)
    requires Alert(m)
    ensures Alert(After(m, Mark))
  {
  }

  lemma CancelAlert(m: Machine, i: nat)
    requires Alert(m) && Enabled(m, CancelNext(i))
    ensures Alert(CancelledNext(m, i))
  {
    var y := CancelledNext(m, i);
    forall k: nat | AbortBound.UnderWay(m, k)
      ensures AbortBound.UnderWay(y, k)
    {
      var j :| 0 <= j < |m.aborts| && m.aborts[j].turn == k;
      assert y.aborts[j].turn == k;
    }
    SameAlert(m, y);
  }

  lemma PostsAlert(m: Machine, step: Step)
    requires Enabled(m, step) && (Appends(step) || step.Fire? || step.Stream? || step.Exit? || step.EndAbort?)
    ensures Alert(After(m, step))
  {
    assert After(m, step).s.events != [];
  }

  lemma QuietAlert(m: Machine, step: Step)
    requires Alert(m) && Enabled(m, step)
    requires step.SubmitSteer? || step.Permit? || step.EndRequest? || step.AddOp? || step.DoAction? || step.PumpOp? ||
             step.Deliver?
    ensures Alert(After(m, step))
  {
    SameAlert(m, After(m, step));
  }

  lemma StepAlert(m: Machine, step: Step)
    requires Alert(m) && Connected(m) && Posted(m) && Answers.Disciplined(m.s.turns) && Enabled(m, step)
    ensures Alert(After(m, step))
  {
    match step
    case Evaluate => EvaluateAlert(m);
    case Pop(ids, calls) => PopAlert(m, ids, calls);
    case Abort(ids) => AbortAlert(m, ids);
    case CancelNext(i) => CancelAlert(m, i);
    case Prompt(id) => PromptAlert(m, id);
    case SubmitPrompt(id, ok) => SubmitAlert(m, id, ok);
    case Steer(id, interrupt) => SteerAlert(m, id, interrupt);
    case SubmitNext => SubmitNextAlert(m);
    case Mark => MarkAlert(m);
    case _ => if Appends(step) || step.Fire? || step.Stream? || step.Exit? || step.EndAbort? {
      PostsAlert(m, step);
    } else {
      QuietAlert(m, step);
    }
  }

  lemma {:induction false} RunAlert(m: Machine, steps: seq<Step>)
    requires Alert(m) && Connected(m) && Posted(m) && Answers.Disciplined(m.s.turns) && Run(m, steps)
    ensures Alert(Final(m, steps))
    decreases |steps|
  {
    if steps != [] {
      StepAlert(m, steps[0]);
      StepConnected(m, steps[0]);
      StepPosted(m, steps[0]);
      Answers.StepDisciplined(m, steps[0]);
      RunAlert(After(m, steps[0]), steps[1..]);
    }
  }

  /** The actor never sleeps over work: in every run, when it rests over an empty queue, nothing is on
      its way to the log and no abort of the current turn is under way, then that turn cannot be
      answered yet, by the whole log, and no steer that could be handed on waits. */
  lemma ActorNeverSleepsOverWork(log: seq<Item>, m: Machine, k: nat)
    requires Reaches(Opened(log), m) && m.s.turns.current == Some(k)
    requires m.actor.Resting? && m.s.events == [] && m.inbox == [] && !AbortBound.UnderWay(m, k)
    ensures k < |m.s.turns.all| && m.applied == |m.log|
    ensures !Due(m, m.s.turns.all[k]) && !CanSteer(m, m.s.turns.all[k])
  {
    OpenedReplicated(log);
    ReachedReplicated(Opened(log), m);
    Answers.ReachedDisciplined(Opened(log), m);
    var steps :| Run(Opened(log), steps) && m == Final(Opened(log), steps);
    RunAlert(Opened(log), steps);
    Branches(m, k);
  }

  // ---- a prompt and its answer ----

  lemma PromptSubmitted(id: InputId) returns (m: Machine)
    ensures Run(Opened([]), [Prompt(id)] + [SubmitPrompt(id, true)])
    ensures m == Final(Opened([]), [Prompt(id)] + [SubmitPrompt(id, true)])
    ensures m.s == Opened([]).s.(turns := Turns([NewTurn(id)], Some(0), []), index := NO_INDEX, gen := Some(0))
    ensures m == Opened([]).(s := m.s, inbox := [id], live := Some(0), gens := 1, used := {id}, accepted := [{id}],
                             submitted := [id])
  {
    var m1 := After(Opened([]), Prompt(id));
    m := After(m1, SubmitPrompt(id, true));
    assert m1.transit - {id} == map[];
    RunOne(m1, SubmitPrompt(id, true));
    RunFirst(Opened([]), Prompt(id), [SubmitPrompt(id, true)]);
  }

  lemma InputPersists(m: Machine, id: InputId)
    requires m.s == Opened([]).s.(turns := m.s.turns, index := NO_INDEX, gen := Some(0))
    requires m.inbox == [id] && m.live == Some(0) && m.log == []
    ensures After(m, Persist) ==
            m.(s := m.s.(sync := MirrorState(1, [InputReason(id)], [], NO_ID, false, map[]),
                         index := NO_INDEX.(inputs := {id}), events := [EvItem(Input(id, External))]),
               inbox := [], log := [Input(id, External)])
  {
    assert m.s.index.Add(Input(id, External)) == NO_INDEX.(inputs := {id});
  }

  lemma RequestBegins(m: Machine, id: InputId, turnId: TurnId) returns (y: Machine)
    requires m.s == Opened([]).s.(turns := Turns([NewTurn(id)], Some(0), []), index := NO_INDEX, gen := Some(0))
    requires m.inbox == [id] && m.live == Some(0) && m.log == [] && m.issued == {} && turnId != NO_ID
    ensures Run(m, [Persist] + [StartTurn(turnId, 1)]) && y == Final(m, [Persist] + [StartTurn(turnId, 1)])
    ensures y.s == m.s.(gate := y.s.gate, sync := MirrorState(0, [], [InputReason(id)], turnId, true, map[]),
                        index := NO_INDEX.(inputs := {id}),
                        events := [EvItem(Input(id, External))] + [EvItem(Turn(turnId))])
    ensures y == m.(s := y.s, inbox := [], log := [Input(id, External)] + [Turn(turnId)], issued := {turnId})
    ensures y.s.gate.inflight && y.s.gate.userStop == 0 && y.s.gate.inflightSeq == 1
  {
    var m1 := After(m, Persist);
    InputPersists(m, id);
    y := After(m1, StartTurn(turnId, 1));
    RunOne(m1, StartTurn(turnId, 1));
    RunFirst(m, Persist, [StartTurn(turnId, 1)]);
  }

  lemma RequestAnswered(m: Machine, turnId: TurnId, response: Response) returns (y: Machine)
    requires m.s.gate.inflight && m.s.gate.userStop == 0 && m.s.gate.inflightSeq == 1 && m.live.Some?
    requires m.s.sync.lastTurn == turnId && m.s.sync.outstanding == map[] && m.s.index.calls == {}
    requires !m.s.index.refuseNew && CallIds(response.output) == {} && response.id != NO_ID
    ensures var steps := [EndRequest(InnerResult(false, false, response, 1, 0))] +
                         [AppendItem(ModelResponse(turnId, response))];
            && Run(m, steps) && y == Final(m, steps)
    ensures y.s == m.s.(gate := y.s.gate, index := y.s.index, sync := m.s.sync.(inflight := false),
                        events := m.s.events + [EvItem(ModelResponse(turnId, response))])
    ensures y == m.(s := y.s, log := m.log + [ModelResponse(turnId, response)])
  {
    var ended := EndRequest(InnerResult(false, false, response, 1, 0));
    var m1 := After(m, ended);
    assert m1.s.events == m.s.events + [] == m.s.events;
    var item := ModelResponse(turnId, response);
    assert StartCalls(map[], response.output) == map[];
    y := After(m1, AppendItem(item));
    RunOne(m1, AppendItem(item));
    RunFirst(m, ended, [AppendItem(item)]);
  }

  /** The actor takes one item and evaluates. */
  lemma OneItemSeen(m: Machine, item: Item) returns (y: Machine)
    requires m.actor.Resting? && m.s.events != [] && m.s.events[0] == EvItem(item)
    ensures Run(m, [Pop([], [])] + [Evaluate]) && y == Final(m, [Pop([], [])] + [Evaluate])
    ensures y == EvaluatedStep(m.(s := HandledItem(m.s.(events := m.s.events[1..]), item), applied := m.applied + 1,
                                  actor := MustEvaluate))
  {
    var m1 := After(m, Pop([], []));
    y := After(m1, Evaluate);
    RunOne(m1, Evaluate);
    RunFirst(m, Pop([], []), [Evaluate]);
  }

  lemma InputSeen(m: Machine, id: InputId, rest: seq<Event>) returns (y: Machine)
    requires m.actor.Resting? && m.s.turns == Turns([NewTurn(id)], Some(0), []) && m.s.am == EMPTY
    requires m.s.events == [EvItem(Input(id, External))] + rest
    ensures Run(m, [Pop([], [])] + [Evaluate]) && y == Final(m, [Pop([], [])] + [Evaluate])
    ensures y.s.turns == Turns([NewTurn(id).(unobserved := {})], Some(0), [])
    ensures y.s.am == MirrorState(1, [InputReason(id)], [], NO_ID, false, map[])
    ensures y.actor.Resting? && y.s.events == rest && y.log == m.log
  {
    var t := NewTurn(id).(unobserved := {});
    assert Bookkept(NewTurn(id), Input(id, External)) == t;
    assert m.s.turns.Put(t) == Turns([t], Some(0), []);
    y := OneItemSeen(m, Input(id, External));
  }

  lemma TurnSeen(m: Machine, id: InputId, turnId: TurnId, rest: seq<Event>) returns (y: Machine)
    requires m.actor.Resting? && m.s.turns == Turns([NewTurn(id).(unobserved := {})], Some(0), [])
    requires m.s.am == MirrorState(1, [InputReason(id)], [], NO_ID, false, map[])
    requires m.s.events == [EvItem(Turn(turnId))] + rest
    ensures Run(m, [Pop([], [])] + [Evaluate]) && y == Final(m, [Pop([], [])] + [Evaluate])
    ensures y.s.turns == m.s.turns && y.s.am == MirrorState(0, [], [InputReason(id)], turnId, true, map[])
    ensures y.actor.Resting? && y.s.events == rest && y.log == m.log
  {
    assert m.s.turns.Put(NewTurn(id).(unobserved := {})) == m.s.turns;
    y := OneItemSeen(m, Turn(turnId));
  }

  lemma ResponseSeen(m: Machine, id: InputId, turnId: TurnId, response: Response) returns (y: Machine)
    requires m.actor.Resting? && m.s.turns == Turns([NewTurn(id).(unobserved := {})], Some(0), [])
    requires m.s.am == MirrorState(0, [], [InputReason(id)], turnId, true, map[])
    requires m.s.events == [EvItem(ModelResponse(turnId, response))]
    requires CallIds(response.output) == {} && response.stop == StopComplete
    ensures Run(m, [Pop([], [])] + [Evaluate]) && y == Final(m, [Pop([], [])] + [Evaluate])
    ensures y.s.turns.answers == [(0, TurnResult(Some(EndTurn), None, false))] && y.log == m.log
  {
    assert m.s.turns.Put(NewTurn(id).(unobserved := {})) == m.s.turns;
    assert StartCalls(map[], response.output) == map[];
    y := OneItemSeen(m, ModelResponse(turnId, response));
  }

  lemma AnswerSeen(m: Machine, id: InputId, turnId: TurnId, response: Response) returns (y: Machine)
    requires m.actor.Resting? && m.s.turns == Turns([NewTurn(id)], Some(0), []) && m.s.am == EMPTY
    requires m.s.events == ([EvItem(Input(id, External))] + [EvItem(Turn(turnId))]) +
                           [EvItem(ModelResponse(turnId, response))]
    requires CallIds(response.output) == {} && response.stop == StopComplete
    ensures var seen := [Pop([], [])] + [Evaluate]; Run(m, seen + seen + seen) && y == Final(m, seen + seen + seen)
    ensures y.s.turns.answers == [(0, TurnResult(Some(EndTurn), None, false))] && y.log == m.log
  {
    var seen := [Pop([], [])] + [Evaluate];
    var last := [EvItem(ModelResponse(turnId, response))];
    assert m.s.events == [EvItem(Input(id, External))] + ([EvItem(Turn(turnId))] + last);
    var m1 := InputSeen(m, id, [EvItem(Turn(turnId))] + last);
    var m2 := TurnSeen(m1, id, turnId, last);
    y := ResponseSeen(m2, id, turnId, response);
    RunsJoin(m, seen, seen);
    RunsJoin(m, seen + seen, seen);
  }

  /** A whole turn, from a new session: a prompt whose response asks for no tool and simply completes
      is answered end_turn, and its response is on record. */
  lemma PromptEndsTurn(id: InputId, turnId: TurnId, response: Response) returns (steps: seq<Step>)
    requires turnId != NO_ID && response.id != NO_ID
    requires CallIds(response.output) == {} && response.stop == StopComplete
    ensures Run(Opened([]), steps)
    ensures var y := Final(Opened([]), steps);
            && y.log == [Input(id, External)] + [Turn(turnId)] + [ModelResponse(turnId, response)]
            && |y.s.turns.answers| == 1 && y.s.turns.answers[0].0 == 0
            && Respond(y.s.turns.answers[0].1) == StoppedWith(Some(EndTurn))
  {
    var m0 := Opened([]);
    var m1 := PromptSubmitted(id);
    var m2 := RequestBegins(m1, id, turnId);
    var m3 := RequestAnswered(m2, turnId, response);
    var m4 := AnswerSeen(m3, id, turnId, response);
    var a, b := [Prompt(id)] + [SubmitPrompt(id, true)], [Persist] + [StartTurn(turnId, 1)];
    var c := [EndRequest(InnerResult(false, false, response, 1, 0))] + [AppendItem(ModelResponse(turnId, response))];
    var seen := [Pop([], [])] + [Evaluate];
    RunsJoin(m0, a, b);
    RunsJoin(m0, a + b, c);
    RunsJoin(m0, a + b + c, seen + seen + seen);
    steps := a + b + c + (seen + seen + seen);
  }
}
