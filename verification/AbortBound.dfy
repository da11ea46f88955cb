/** An aborted turn is answered: something that leads to the answer is always under way and never
    falls back, the actor, the aborts and the timers alone get there in a bounded number of steps
    however they are scheduled, and the flush event settles it. */
module AbortBound {
  import opened Harness
  import opened Mirrors
  import opened Ops
  import opened SessionSteps
  import opened SessionRuns
  import opened Progress
  import opened Answers

  predicate Cancelling(ts: Turns) {
    ts.Now().Some? && ts.Now().value.cancelling
  }

  /** Turn `k` is the current one and aborted. */
  predicate UnderAbort(ts: Turns, k: nat) {
    ts.current == Some(k) && Cancelling(ts)
  }

  /** The flush was handled and evaluate, which will answer the turn, comes next. */
  predicate Settled(m: Machine) {
    Cancelling(m.s.turns) && m.s.turns.Now().value.flushed && m.s.turns.Now().value.waitCalls == {} &&
    m.actor.MustEvaluate?
  }

  predicate UnderWay(m: Machine, k: nat) {
    exists i | 0 <= i < |m.aborts| :: m.aborts[i].turn == k
  }

  /** How far the abort of the current turn `k` is from its answer: its cancellations run (5), its
      grace timer (4), its grace event (3), its flush timer (2), its flush event (1), settled (0). */
  function Stage(m: Machine, k: nat): nat {
    if Settled(m) then 0
    else if EvCancelFlush(k) in m.s.events then 1
    else if FlushTimer(k) in m.s.timers then 2
    else if EvCancelGrace(k) in m.s.events then 3
    else if GraceTimer(k) in m.s.timers then 4
    else if UnderWay(m, k) then 5
    else 6
  }

  predicate Bounded(m: Machine) {
    Cancelling(m.s.turns) ==> Stage(m, m.s.turns.current.value) <= 5
  }

  /** How a turn may change while it stays aborted: neither its flush nor its wait is undone. */
  predicate Continues(a: Turns, b: Turns) {
    Cancelling(b) ==>
      && (Cancelling(a) && a.current == b.current)
      && (a.Now().value.flushed ==> b.Now().value.flushed)
      && b.Now().value.waitCalls <= a.Now().value.waitCalls
  }

  /** The step took the abort of turn `k` no step back, or began it. */
  predicate Advances(m: Machine, y: Machine, k: nat) {
    UnderAbort(y.s.turns, k) ==>
      (if UnderAbort(m.s.turns, k) then Stage(y, k) <= Stage(m, k) else Stage(y, k) <= 5)
  }

  // ---- steps that leave all that is under way in place ----

  lemma KeepsStage(m: Machine, y: Machine, k: nat)
    requires Continues(m.s.turns, y.s.turns)
    requires m.s.timers <= y.s.timers && m.s.events <= y.s.events && (UnderWay(m, k) ==> UnderWay(y, k))
    requires m.actor.MustEvaluate? ==> y.actor.MustEvaluate?
    ensures Advances(m, y, k)
  {
  }

  lemma PromptAdvances(m: Machine, id: InputId, k: nat)
    requires Disciplined(m.s.turns) && Enabled(m, Prompt(id))
    ensures Advances(m, TakePrompt(m, id), k)
  {
    KeepsStage(m, TakePrompt(m, id), k);
  }

  lemma SteerAdvances(m: Machine, id: InputId, interrupt: bool, k: nat)
    ensures Advances(m, TakeSteer(m, id, interrupt), k)
  {
    KeepsStage(m, TakeSteer(m, id, interrupt), k);
  }

  lemma MarkAdvances(m: Machine, k: nat)
    ensures Advances(m, After(m, Mark), k)
  {
    KeepsStage(m, After(m, Mark), k);
  }

  lemma SubmitAdvances(m: Machine, id: InputId, ok: bool, k: nat)
    ensures Advances(m, SubmittedPrompt(m, id, ok), k)
  {
    KeepsStage(m, SubmittedPrompt(m, id, ok), k);
  }

  lemma OthersGrow(m: Machine, step: Step)
    requires Appends(step) || step.Stream? || step.EndRequest? || step.Exit?
    ensures var y := After(m, step);
            && m.s.timers <= y.s.timers && m.s.events <= y.s.events && y.aborts == m.aborts
            && (m.actor.MustEvaluate? ==> y.actor.MustEvaluate?)
  {
  }

  lemma OthersGrowToo(m: Machine, step: Step)
    requires step.SubmitSteer? || step.SubmitNext? || step.Permit? || step.AddOp? || step.DoAction? || step.PumpOp? ||
             step.Deliver?
    requires Enabled(m, step)
    ensures var y := After(m, step);
            && m.s.timers <= y.s.timers && m.s.events <= y.s.events && y.aborts == m.aborts
            && (m.actor.MustEvaluate? ==> y.actor.MustEvaluate?)
  {
  }

  lemma OthersAdvance(m: Machine, step: Step, k: nat)
    requires Enabled(m, step)
    requires Appends(step) || step.Stream? || step.EndRequest? || step.Exit? || step.SubmitSteer? ||
             step.SubmitNext? || step.Permit? || step.AddOp? || step.DoAction? || step.PumpOp? || step.Deliver?
    ensures Advances(m, After(m, step), k)
  {
    TurnsKept(m, step);
    if Appends(step) || step.Stream? || step.EndRequest? || step.Exit? {
      OthersGrow(m, step);
    } else {
      OthersGrowToo(m, step);
    }
    KeepsStage(m, After(m, step), k);
  }

  // ---- steps that move it on ----

  lemma AbortAdvances(m: Machine, ids: seq<OpId>, k: nat)
    requires Disciplined(m.s.turns)
    ensures Advances(m, StartedAbort(m, ids), k)
  {
    var y := StartedAbort(m, ids);
    if Abortable(m.s.turns) {
      assert y.aborts[|m.aborts|].turn == m.s.turns.current.value;
    }
  }

  lemma CancelAdvances(m: Machine, i: nat, k: nat)
    requires Enabled(m, CancelNext(i))
    ensures Advances(m, CancelledNext(m, i), k)
  {
    var y := CancelledNext(m, i);
    if UnderWay(m, k) {
      var j :| 0 <= j < |m.aborts| && m.aborts[j].turn == k;
      assert y.aborts[j].turn == k;
    }
    KeepsStage(m, y, k);
  }

  lemma EndAdvances(m: Machine, i: nat, k: nat)
    requires Enabled(m, EndAbort(i))
    ensures Advances(m, EndedAbort(m, i), k)
  {
    var y := EndedAbort(m, i);
    if m.aborts[i].turn != k {
      if UnderWay(m, k) {
        var j :| 0 <= j < |m.aborts| && m.aborts[j].turn == k;
        assert y.aborts[if j < i then j else j - 1] == m.aborts[j];
      }
      KeepsStage(m, y, k);
    }
  }

  lemma FireAdvances(m: Machine, timer: TurnTimer, k: nat)
    requires timer in m.s.timers
    ensures Advances(m, Fired(m, timer), k)
  {
    var y := Fired(m, timer);
    var posted := if timer.GraceTimer? then EvCancelGrace(timer.turn) else EvCancelFlush(timer.turn);
    assert y.s.events[|m.s.events|] == posted;
    assert m.s.events <= y.s.events;
  }

  lemma EvaluateAdvances(m: Machine, k: nat)
    requires Disciplined(m.s.turns)
    ensures Advances(m, EvaluatedStep(m), k)
  {
    if Settled(m) {
      assert Judge(m.s) == AnswerCancelled;
    }
  }

  lemma PlainEventContinues(s: Session, ev: Event, calls: seq<CallId>)
    requires !ev.EvModelError?
    ensures Continues(s.turns, Handled(s, ev, calls).turns)
  {
    if ev.EvRunExit? {
      ExitContinues(s, ev.gen, ev.failed);
    }
  }

  lemma ExitContinues(s: Session, gen: nat, failed: Option<nat>)
    ensures Continues(s.turns, HandledExit(s, gen, failed).turns)
  {
  }

  lemma ErrorAdvances(m: Machine, ids: seq<OpId>, calls: seq<CallId>, k: nat)
    requires Disciplined(m.s.turns) && m.actor.Resting? && m.s.events != [] && m.s.events[0].EvModelError?
    ensures Advances(m, Popped(m, ids, calls), k)
  {
    var s := m.s.(events := m.s.events[1..]);
    var y := Popped(m, ids, calls);
    assert forall ev | ev in m.s.events && !ev.EvModelError? :: ev in s.events;
    if ErrorAborts(s) {
      assert y.aborts[|m.aborts|].turn == m.s.turns.current.value;
    } else {
      assert y.aborts == m.aborts && Continues(m.s.turns, y.s.turns);
    }
  }

  lemma PopAdvances(m: Machine, ids: seq<OpId>, calls: seq<CallId>, k: nat)
    requires Disciplined(m.s.turns) && m.actor.Resting? && m.s.events != []
    ensures Advances(m, Popped(m, ids, calls), k)
  {
    var ev, s := m.s.events[0], m.s.(events := m.s.events[1..]);
    if ev.EvModelError? {
      ErrorAdvances(m, ids, calls, k);
    } else {
      PlainEventContinues(s, ev, calls);
      HandledKeepsRecords(s, ev, calls);
      PlainPopAdvances(m, ids, calls, k);
    }
  }

  lemma PlainPopAdvances(m: Machine, ids: seq<OpId>, calls: seq<CallId>, k: nat)
    requires Disciplined(m.s.turns) && m.actor.Resting? && m.s.events != [] && !m.s.events[0].EvModelError?
    requires Continues(m.s.turns, Popped(m, ids, calls).s.turns)
    requires Popped(m, ids, calls).s.events == m.s.events[1..]
    ensures Advances(m, Popped(m, ids, calls), k)
  {
    var ev := m.s.events[0];
    var y := Popped(m, ids, calls);
    assert forall e | e in m.s.events :: e == ev || e in m.s.events[1..];
    assert y.aborts == m.aborts && m.s.timers <= y.s.timers;
  }

  lemma StepAdvances(m: Machine, step: Step, k: nat)
    requires Disciplined(m.s.turns) && Enabled(m, step)
    ensures Advances(m, After(m, step), k)
  {
    match step
    case Pop(ids, calls) => PopAdvances(m, ids, calls, k);
    case Fire(timer) => FireAdvances(m, timer, k);
    case Evaluate => EvaluateAdvances(m, k);
    case Abort(ids) => AbortAdvances(m, ids, k);
    case CancelNext(i) => CancelAdvances(m, i, k);
    case EndAbort(i) => EndAdvances(m, i, k);
    case SubmitPrompt(id, ok) => SubmitAdvances(m, id, ok, k);
    case Prompt(id) => PromptAdvances(m, id, k);
    case Steer(id, interrupt) => SteerAdvances(m, id, interrupt, k);
    case Mark => MarkAdvances(m, k);
    case _ => OthersAdvance(m, step, k);
  }

  lemma {:induction false} RunBounded(m: Machine, steps: seq<Step>)
    requires Bounded(m) && Disciplined(m.s.turns) && Run(m, steps)
    ensures Bounded(Final(m, steps))
    decreases |steps|
  {
    if steps != [] {
      var y := After(m, steps[0]);
      if Cancelling(y.s.turns) {
        StepAdvances(m, steps[0], y.s.turns.current.value);
      }
      StepDisciplined(m, steps[0]);
      RunBounded(y, steps[1..]);
    }
  }

  /** An aborted turn is never forgotten: until it is answered, its cancellations run, or its grace
      timer, grace event, flush timer or flush event is under way, or its flush was handled and
      the very next actor step is the evaluation that answers it. */
  lemma AbortIsNeverForgotten(log: seq<Item>, m: Machine)
    requires Reaches(Opened(log), m)
    ensures Bounded(m)
  {
    var steps :| Run(Opened(log), steps) && m == Final(Opened(log), steps);
    RunBounded(Opened(log), steps);
  }

  /** And it never falls back: no step of any run takes an abort to an earlier stage. */
  lemma StageNeverGoesBack(log: seq<Item>, m: Machine, step: Step, k: nat)
    requires Reaches(Opened(log), m) && Enabled(m, step)
    requires UnderAbort(m.s.turns, k) && UnderAbort(After(m, step).s.turns, k)
    ensures Stage(After(m, step), k) <= Stage(m, k) <= 5
  {
    ReachedDisciplined(Opened(log), m);
    AbortIsNeverForgotten(log, m);
    StepAdvances(m, step, k);
  }

  // ---- the answer is a bounded number of steps away ----

  /** The actor, the aborts under way and the timers have nothing left to do. */
  ghost predicate AtRest(m: Machine) {
    forall step | Internal(step) :: !Enabled(m, step)
  }

  lemma InternalKeepsTurn(m: Machine, step: Step, k: nat)
    requires Disciplined(m.s.turns) && Enabled(m, step) && Internal(step) && UnderAbort(m.s.turns, k)
    ensures UnderAbort(After(m, step).s.turns, k) || Finished(After(m, step).s.turns, k)
  {
    if step.Pop? {
      EventKeepsTurn(m.s.(events := m.s.events[1..]), m.s.events[0], step.calls, k);
    } else if !step.Evaluate? {
      TurnsKept(m, step);
    }
  }

  lemma EventKeepsTurn(s: Session, ev: Event, calls: seq<CallId>, k: nat)
    requires UnderAbort(s.turns, k)
    ensures UnderAbort(Handled(s, ev, calls).turns, k) || Finished(Handled(s, ev, calls).turns, k)
  {
  }

  lemma {:induction false} InternalRunKeepsTurn(m: Machine, steps: seq<Step>, k: nat)
    requires Disciplined(m.s.turns) && Run(m, steps) && AllInternal(steps) && UnderAbort(m.s.turns, k)
    ensures UnderAbort(Final(m, steps).s.turns, k) || Finished(Final(m, steps).s.turns, k)
    decreases |steps|
  {
    if steps != [] {
      var y := After(m, steps[0]);
      InternalKeepsTurn(m, steps[0], k);
      StepDisciplined(m, steps[0]);
      if UnderAbort(y.s.turns, k) {
        InternalRunKeepsTurn(y, steps[1..], k);
      } else {
        FinishedTurnsAreHistory(y, steps[1..]);
      }
    }
  }

  /** An aborted turn leaves the actor, an abort or a timer a step to take. */
  lemma AbortMoves(m: Machine, k: nat) returns (step: Step)
    requires Manned(m) && Bounded(m) && UnderAbort(m.s.turns, k)
    ensures Enabled(m, step) && Internal(step)
  {
    if !m.actor.Resting? || m.s.events != [] {
      step := ActorMoves(m);
    } else if FlushTimer(k) in m.s.timers {
      step := Fire(FlushTimer(k));
    } else if GraceTimer(k) in m.s.timers {
      step := Fire(GraceTimer(k));
    } else {
      var i :| 0 <= i < |m.aborts| && m.aborts[i].turn == k;
      step := TaskStep(m, i);
    }
  }

  /** From every reachable state with an aborted turn, the actor, the aborts under way and the
      timers take at most a bounded number of steps by themselves, in whatever order, and when
      they come to rest the turn is answered. */
  lemma AbortIsAnsweredWithin(log: seq<Item>, m: Machine, k: nat, steps: seq<Step>)
    requires Reaches(Opened(log), m) && UnderAbort(m.s.turns, k) && Run(m, steps) && AllInternal(steps)
    ensures |steps| <= Work(m)
    ensures AtRest(Final(m, steps)) ==> Finished(Final(m, steps).s.turns, k)
  {
    InternalRunShrinks(m, steps);
    var before :| Run(Opened(log), before) && m == Final(Opened(log), before);
    RunsJoin(Opened(log), before, steps);
    var y := Final(m, steps);
    assert Reaches(Opened(log), y);
    AnsweredOrMoving(log, m, k, steps);
  }

  lemma AnsweredOrMoving(log: seq<Item>, m: Machine, k: nat, steps: seq<Step>)
    requires Reaches(Opened(log), m) && UnderAbort(m.s.turns, k) && Run(m, steps) && AllInternal(steps)
    requires Reaches(Opened(log), Final(m, steps))
    ensures Finished(Final(m, steps).s.turns, k) || !AtRest(Final(m, steps))
  {
    var y := Final(m, steps);
    ReachedDisciplined(Opened(log), m);
    InternalRunKeepsTurn(m, steps, k);
    if UnderAbort(y.s.turns, k) {
      ReachedManned(log, y);
      AbortIsNeverForgotten(log, y);
      var step := AbortMoves(y, k);
    }
  }

  // ---- the flush settles it ----

  /** Turn `k` is answered, or will be by the next evaluation. */
  predicate Doomed(m: Machine, k: nat) {
    Finished(m.s.turns, k) || (m.s.turns.current == Some(k) && Settled(m))
  }

  lemma ClientContinues(m: Machine, step: Step)
    requires Cancelling(m.s.turns) && Disciplined(m.s.turns) && Enabled(m, step)
    requires step.Prompt? || step.Mark? || step.Steer?
    ensures Continues(m.s.turns, After(m, step).s.turns) && Cancelling(After(m, step).s.turns)
  {
  }

  lemma SubmitDoomed(m: Machine, id: InputId, ok: bool, k: nat)
    requires Doomed(m, k)
    ensures Doomed(SubmittedPrompt(m, id, ok), k)
  {
  }

  lemma AbortDoomed(m: Machine, ids: seq<OpId>, k: nat)
    requires Doomed(m, k) && Disciplined(m.s.turns)
    ensures Doomed(After(m, Abort(ids)), k)
  {
    if Finished(m.s.turns, k) {
      AbortDisciplined(m.s);
    }
  }

  lemma EvaluateDoomed(m: Machine, k: nat)
    requires Doomed(m, k) && Disciplined(m.s.turns)
    ensures Finished(EvaluatedStep(m).s.turns, k)
  {
    if Finished(m.s.turns, k) {
      EvaluatedDisciplined(m.s);
    } else {
      assert Judge(m.s) == AnswerCancelled;
    }
  }

  lemma OthersDoomed(m: Machine, step: Step, k: nat)
    requires Doomed(m, k) && !Finished(m.s.turns, k) && Enabled(m, step)
    requires !step.Evaluate? && !step.Abort? && !step.SubmitPrompt? && !step.Prompt? && !step.Mark? && !step.Steer?
    ensures Doomed(After(m, step), k)
  {
    TurnsKept(m, step);
  }

  lemma StepDoomed(m: Machine, step: Step, k: nat)
    requires Doomed(m, k) && Disciplined(m.s.turns) && Enabled(m, step)
    ensures Doomed(After(m, step), k)
    ensures step.Evaluate? ==> Finished(After(m, step).s.turns, k)
  {
    match step
    case Evaluate => EvaluateDoomed(m, k);
    case Abort(ids) => AbortDoomed(m, ids, k);
    case SubmitPrompt(id, ok) => SubmitDoomed(m, id, ok, k);
    case _ => RestDoomed(m, step, k);
  }

  lemma RestDoomed(m: Machine, step: Step, k: nat)
    requires Doomed(m, k) && Disciplined(m.s.turns) && Enabled(m, step)
    requires !step.Evaluate? && !step.Abort? && !step.SubmitPrompt?
    ensures Doomed(After(m, step), k)
  {
    if Finished(m.s.turns, k) {
      StepDisciplined(m, step);
    } else if step.Prompt? || step.Mark? || step.Steer? {
      ClientContinues(m, step);
    } else {
      OthersDoomed(m, step, k);
    }
  }

  lemma {:induction false} RunDoomed(m: Machine, steps: seq<Step>, k: nat)
    requires Doomed(m, k) && Disciplined(m.s.turns) && Run(m, steps)
    ensures Doomed(Final(m, steps), k)
    ensures (exists i | 0 <= i < |steps| :: steps[i].Evaluate?) ==> Finished(Final(m, steps).s.turns, k)
    decreases |steps|
  {
    if steps != [] {
      var y := After(m, steps[0]);
      StepDoomed(m, steps[0], k);
      StepDisciplined(m, steps[0]);
      RunDoomed(y, steps[1..], k);
      if steps[0].Evaluate? {
        FinishedTurnsAreHistory(y, steps[1..]);
      } else if i :| 0 <= i < |steps| && steps[i].Evaluate? {
        assert steps[1..][i - 1] == steps[i];
      }
    }
  }

  /** Bounded abort: once the actor handles the flush event of an aborted turn, the turn is
      answered by the next evaluation at the latest, whatever happens in between. */
  lemma FlushAnswers(
    log: seq<Item>, m: Machine, ids: seq<OpId>, calls: seq<CallId>, later: seq<Step>, k: nat)
    requires Reaches(Opened(log), m) && Enabled(m, Pop(ids, calls)) && m.s.events[0] == EvCancelFlush(k)
    requires m.s.turns.current == Some(k) && Cancelling(m.s.turns)
    requires Run(Popped(m, ids, calls), later) && exists i | 0 <= i < |later| :: later[i].Evaluate?
    ensures Finished(Final(Popped(m, ids, calls), later).s.turns, k)
  {
    ReachedDisciplined(Opened(log), m);
    FlushDooms(m, ids, calls, k);
    RunDoomed(Popped(m, ids, calls), later, k);
  }

  lemma FlushDooms(m: Machine, ids: seq<OpId>, calls: seq<CallId>, k: nat)
    requires Disciplined(m.s.turns) && m.s.events != [] && m.s.events[0] == EvCancelFlush(k)
    requires m.s.turns.current == Some(k) && Cancelling(m.s.turns)
    ensures Disciplined(Popped(m, ids, calls).s.turns) && Doomed(Popped(m, ids, calls), k)
  {
    HandledDisciplined(m.s.(events := m.s.events[1..]), m.s.events[0], calls);
  }
}
