/** What a prompt is answered with: the stop reason of a turn that ended by itself, and the errors
    that must surface. */
module Outcomes {
  import opened Harness
  import opened MirrorLog
  import opened Gates
  import opened Ops
  import opened SessionSteps
  import opened SessionRuns
  import opened Replicas
  import opened NormalEnd
  import Answers

  predicate Stopped(item: Item, stop: Stop) {
    item.ModelResponse? && item.response.stop == stop
  }

  /** Some response among `items` stopped for `stop`, and none after it for another odd reason. */
  ghost predicate StoppedLast(items: seq<Item>, stop: Stop) {
    exists i :: 0 <= i < |items| && Stopped(items[i], stop) &&
                forall j | i < j < |items| && items[j].ModelResponse? :: items[j].response.stop in {stop, StopComplete}
  }

  /** The stop reason `items` call for: that of the newest response that did not just complete. */
  ghost predicate CallsFor(items: seq<Item>, reason: Option<StopReason>) {
    match reason
    case None => forall i | 0 <= i < |items| && items[i].ModelResponse? :: items[i].response.stop == StopComplete
    case Some(MaxTokens) => StoppedLast(items, StopMaxOutputTokens)
    case Some(Refusal) => StoppedLast(items, StopRefused)
    case _ => false
  }

  /** While turn `k` runs, its stop reason is what the items seen since `from` call for. */
  ghost predicate Tracks(m: Machine, k: nat, from: nat) {
    && k < |m.s.turns.all| && from <= m.applied <= |m.log|
    && (m.s.turns.current == Some(k) && m.s.turns.Now().Some? ==>
          CallsFor(m.log[from..m.applied], m.s.turns.Now().value.stop))
  }

  lemma StoppedExtends(items: seq<Item>, item: Item, stop: Stop)
    requires stop != StopComplete
    ensures StoppedLast(items + [item], stop) ==
            (Stopped(item, stop) ||
             (StoppedLast(items, stop) && (item.ModelResponse? ==> item.response.stop == StopComplete)))
  {
    var next := items + [item];
    if Stopped(item, stop) {
      assert Stopped(next[|items|], stop);
    } else if StoppedLast(items, stop) && (item.ModelResponse? ==> item.response.stop == StopComplete) {
      var i :| 0 <= i < |items| && Stopped(items[i], stop) &&
               forall j | i < j < |items| && items[j].ModelResponse? :: items[j].response.stop in {stop, StopComplete};
      assert Stopped(next[i], stop);
      assert forall j | i < j < |items| :: next[j] == items[j];
    }
    if StoppedLast(next, stop) && !Stopped(item, stop) {
      var i :| 0 <= i < |next| && Stopped(next[i], stop) &&
               forall j | i < j < |next| && next[j].ModelResponse? :: next[j].response.stop in {stop, StopComplete};
      assert Stopped(items[i], stop);
      assert next[|items|] == item;
      assert forall j | i < j < |items| :: next[j] == items[j];
    }
  }

  lemma BookkeptCallsFor(items: seq<Item>, item: Item, t: TurnState)
    requires CallsFor(items, t.stop)
    ensures CallsFor(items + [item], Bookkept(t, item).stop)
  {
    StoppedExtends(items, item, StopMaxOutputTokens);
    StoppedExtends(items, item, StopRefused);
  }

  // ---- steps that leave stop reasons and errors alone ----

  /** No turn begins; the current one, if it goes on, keeps its stop reason and any error; a turn
      that ends with an error recorded is answered with one. */
  predicate Steady(a: Turns, b: Turns) {
    && |a.all| == |b.all|
    && (b.Now().Some? ==>
          && a.Now().Some? && a.current == b.current
          && b.Now().value.stop == a.Now().value.stop
          && (a.Now().value.err.Some? ==> b.Now().value.err.Some?))
    && (b.answers == a.answers ||
        (|b.answers| == |a.answers| + 1 && b.answers[..|a.answers|] == a.answers &&
         (b.answers[|a.answers|].1.err.Some? ||
          (a.current == Some(b.answers[|a.answers|].0) && a.Now().Some? &&
           b.answers[|a.answers|].1.err == a.Now().value.err))))
  }

  lemma FinishSteady(ts: Turns, k: nat, r: TurnResult)
    requires r.err.Some? || (ts.current == Some(k) && ts.Now().Some? && r.err == ts.Now().value.err)
    ensures Steady(ts, ts.Finish(k, r))
  {
  }

  lemma AbortSteady(s: Session)
    ensures Steady(s.turns, AbortMarks(s).turns)
  {
  }

  lemma ErrorSteady(s: Session, code: nat)
    ensures Steady(s.turns, HandledError(s, code).turns)
    ensures s.turns.Running() && HandledError(s, code).turns.Now().Some? ==>
              HandledError(s, code).turns.Now().value.err.Some?
  {
    AbortSteady(Noted(s, code));
  }

  lemma ExitSteady(s: Session, gen: nat, failed: Option<nat>)
    ensures Steady(s.turns, HandledExit(s, gen, failed).turns)
  {
    if failed.Some? && s.turns.Now().Some? {
      FinishSteady(s.turns, s.turns.current.value,
                   TurnResult(if s.turns.Now().value.cancelling then Some(StopCancelled) else None,
                              Some(CoordinatorStopped(failed.value)), false));
    }
  }

  lemma FlushSteady(s: Session, k: nat, calls: seq<CallId>)
    ensures Steady(s.turns, HandledFlush(s, k, calls).turns)
  {
  }

  lemma HandledSteady(s: Session, ev: Event, calls: seq<CallId>)
    requires !ev.EvItem?
    ensures Steady(s.turns, Handled(s, ev, calls).turns)
  {
    match ev
    case EvModelError(code) => ErrorSteady(s, code);
    case EvRunExit(gen, failed) => ExitSteady(s, gen, failed);
    case EvCancelFlush(k) => FlushSteady(s, k, calls);
    case _ =>
  }

  lemma EvaluatedSteady(s: Session)
    ensures Steady(s.turns, Evaluated(s).0.turns)
  {
    match Judge(s)
    case Wait =>
    case SubmitSteers =>
    case AnswerCancelled =>
      FinishSteady(s.turns, s.turns.current.value, TurnResult(Some(StopCancelled), s.turns.Now().value.err, false));
    case AnswerDone =>
      var t := s.turns.Now().value;
      FinishSteady(s.turns, s.turns.current.value,
                   TurnResult(if t.stop.Some? then t.stop else Some(EndTurn), t.err, false));
  }

  lemma SubmitSteady(m: Machine, id: InputId, ok: bool)
    ensures Steady(m.s.turns, SubmittedPrompt(m, id, ok).s.turns)
  {
    if id in m.transit && m.transit[id].FromPrompt? {
      FinishSteady(m.s.turns, m.transit[id].turn, TurnResult(None, Some(SubmitFailed), false));
    }
  }

  lemma MarkSteady(s: Session)
    ensures Steady(s.turns, MarkCancelled(s).turns)
  {
  }

  lemma SteerSteady(m: Machine, id: InputId, interrupt: bool)
    ensures Steady(m.s.turns, TakeSteer(m, id, interrupt).s.turns)
  {
  }

  predicate SeesItem(m: Machine, step: Step) {
    step.Pop? && m.s.events != [] && m.s.events[0].EvItem?
  }

  lemma StepSteady(m: Machine, step: Step)
    requires Enabled(m, step) && !step.Prompt? && !SeesItem(m, step)
    ensures Steady(m.s.turns, After(m, step).s.turns)
  {
    match step
    case SubmitPrompt(id, ok) => SubmitSteady(m, id, ok);
    case Abort(_) => AbortSteady(m.s);
    case Pop(_, calls) => HandledSteady(m.s.(events := m.s.events[1..]), m.s.events[0], calls);
    case Evaluate => EvaluatedSteady(m.s);
    case Mark => MarkSteady(m.s);
    case Steer(id, interrupt) => SteerSteady(m, id, interrupt);
    case _ => Answers.TurnsKept(m, step);
  }

  // ---- the stop reason ----

  /** What the actor has seen changes only when it takes an item. */
  lemma SeenKept(m: Machine, step: Step)
    requires Enabled(m, step) && !SeesItem(m, step)
    ensures After(m, step).applied == m.applied && m.log <= After(m, step).log
  {
    if !Appends(step) {
      RecordsKept(m, step);
    }
  }

  lemma OneMore<T>(s: seq<T>, i: nat, j: nat)
    requires i <= j < |s|
    ensures s[i..j + 1] == s[i..j] + [s[j]]
  {
  }

  lemma ItemTracks(m: Machine, step: Step, k: nat, from: nat)
    requires Tracks(m, k, from) && Replicated(m) && Enabled(m, step) && SeesItem(m, step)
    ensures Tracks(After(m, step), k, from)
  {
    var item := m.s.events[0].item;
    ItemsHead(m.s.events);
    assert m.log[m.applied..][0] == m.log[m.applied] == item;
    HandlingTracks(m, Popped(m, step.ids, step.calls), item, k, from);
  }

  lemma HandlingTracks(m: Machine, y: Machine, item: Item, k: nat, from: nat)
    requires Tracks(m, k, from) && m.applied < |m.log| && m.log[m.applied] == item
    requires y.log == m.log && y.applied == m.applied + 1
    requires y.s.turns == HandledItem(m.s, item).turns
    ensures Tracks(y, k, from)
  {
    OneMore(m.log, from, m.applied);
    if m.s.turns.current == Some(k) && m.s.turns.Now().Some? {
      BookkeptCallsFor(m.log[from..m.applied], item, m.s.turns.Now().value);
    }
  }

  lemma PromptTracks(m: Machine, id: InputId, k: nat, from: nat)
    requires Tracks(m, k, from)
    ensures Tracks(TakePrompt(m, id), k, from)
  {
  }

  lemma SteadyTracks(m: Machine, y: Machine, k: nat, from: nat)
    requires Tracks(m, k, from) && Steady(m.s.turns, y.s.turns)
    requires y.applied == m.applied && m.log <= y.log
    ensures Tracks(y, k, from)
  {
    assert y.log[from..y.applied] == m.log[from..m.applied];
  }

  lemma StepTracks(m: Machine, step: Step, k: nat, from: nat)
    requires Tracks(m, k, from) && Replicated(m) && Enabled(m, step)
    ensures Tracks(After(m, step), k, from)
  {
    if SeesItem(m, step) {
      ItemTracks(m, step, k, from);
    } else if step.Prompt? {
      PromptTracks(m, step.id, k, from);
    } else {
      StepSteady(m, step);
      SeenKept(m, step);
      SteadyTracks(m, After(m, step), k, from);
    }
  }

  lemma {:induction false} RunTracks(m: Machine, steps: seq<Step>, k: nat, from: nat)
    requires Tracks(m, k, from) && Replicated(m) && Run(m, steps)
    ensures Tracks(Final(m, steps), k, from)
    decreases |steps|
  {
    if steps != [] {
      StepTracks(m, steps[0], k, from);
      StepReplicated(m, steps[0]);
      RunTracks(After(m, steps[0]), steps[1..], k, from);
    }
  }

  /** The stop reason on record for a turn is what the responses seen since its prompt call for. */
  lemma StopIsNewest(log: seq<Item>, m: Machine, id: InputId, y: Machine)
    requires Reaches(Opened(log), m) && Enabled(m, Prompt(id)) && id !in m.s.index.inputs
    requires Reaches(TakePrompt(m, id), y)
    requires y.s.turns.current == Some(|m.s.turns.all|) && y.s.turns.Now().Some?
    ensures m.applied <= y.applied <= |y.log|
    ensures CallsFor(y.log[m.applied..y.applied], y.s.turns.Now().value.stop)
  {
    OpenedReplicated(log);
    ReachedReplicated(Opened(log), m);
    var m1 := TakePrompt(m, id);
    StepReplicated(m, Prompt(id));
    assert m1.log[m.applied..m.applied] == [];
    var later :| Run(m1, later) && y == Final(m1, later);
    RunTracks(m1, later, |m.s.turns.all|, m.applied);
  }

  /** What evaluate answers when it ends a turn by itself. */
  function DoneReason(s: Session): StopReason
    requires Judge(s) == AnswerDone
  {
    var (t, _) := Evaluated(s);
    var answer := t.turns.answers[|s.turns.answers|].1;
    answer.stop.value
  }

  /** The stop reason of a turn that ends by itself is that of the newest odd response the actor
      saw during the turn, and end_turn when every response simply completed. */
  lemma DoneReasonIsNewest(log: seq<Item>, m: Machine, id: InputId, y: Machine)
    requires Reaches(Opened(log), m) && Enabled(m, Prompt(id)) && id !in m.s.index.inputs
    requires Reaches(TakePrompt(m, id), y)
    requires Judge(y.s) == AnswerDone && y.s.turns.current == Some(|m.s.turns.all|)
    ensures m.applied <= y.applied <= |y.log|
    ensures var reason := DoneReason(y.s);
            CallsFor(y.log[m.applied..y.applied], if reason == EndTurn then None else Some(reason))
  {
    StopIsNewest(log, m, id, y);
  }

  // ---- errors surface ----

  /** Turn `k` has an error on record, or was answered with one. */
  ghost predicate Errs(m: Machine, k: nat) {
    && k < |m.s.turns.all|
    && (m.s.turns.current == Some(k) && m.s.turns.Now().Some? ==> m.s.turns.Now().value.err.Some?)
    && (forall i | 0 <= i < |m.s.turns.answers| && m.s.turns.answers[i].0 == k :: m.s.turns.answers[i].1.err.Some?)
  }

  lemma SteadyErrs(m: Machine, y: Machine, k: nat)
    requires Errs(m, k) && Steady(m.s.turns, y.s.turns)
    ensures Errs(y, k)
  {
    var a, b := m.s.turns.answers, y.s.turns.answers;
    if b != a {
      assert forall i | 0 <= i < |a| :: b[i] == b[..|a|][i];
    }
  }

  lemma ItemErrs(m: Machine, step: Step, k: nat)
    requires Errs(m, k) && Enabled(m, step) && SeesItem(m, step)
    ensures Errs(After(m, step), k)
  {
    var s := m.s.(events := m.s.events[1..]);
    assert After(m, step).s == HandledItem(s, m.s.events[0].item);
  }

  lemma PromptErrs(m: Machine, id: InputId, k: nat)
    requires Errs(m, k)
    ensures Errs(TakePrompt(m, id), k)
  {
  }

  lemma {:induction false} RunErrs(m: Machine, steps: seq<Step>, k: nat)
    requires Errs(m, k) && Run(m, steps)
    ensures Errs(Final(m, steps), k)
    decreases |steps|
  {
    if steps != [] {
      var step := steps[0];
      if SeesItem(m, step) {
        ItemErrs(m, step, k);
      } else if step.Prompt? {
        PromptErrs(m, step.id, k);
      } else {
        StepSteady(m, step);
        SteadyErrs(m, After(m, step), k);
      }
      RunErrs(After(m, step), steps[1..], k);
    }
  }

  lemma ErrorIsNoted(m: Machine, ids: seq<OpId>, calls: seq<CallId>, k: nat)
    requires m.s.events != [] && m.s.events[0].EvModelError?
    requires Answers.Disciplined(m.s.turns) && m.s.turns.current == Some(k)
    ensures Errs(Popped(m, ids, calls), k)
  {
    var s := m.s.(events := m.s.events[1..]);
    ErrorSteady(s, m.s.events[0].code);
    ErrorAnswersNothing(s, m.s.events[0].code);
    assert Popped(m, ids, calls).s == HandledError(s, m.s.events[0].code);
    assert forall i | 0 <= i < |m.s.turns.answers| :: Answers.Finished(m.s.turns, m.s.turns.answers[i].0);
  }

  lemma ErrorAnswersNothing(s: Session, code: nat)
    ensures HandledError(s, code).turns.answers == s.turns.answers
  {
  }

  /** A provider error handled while a turn runs is never swallowed: however the session goes on,
      that turn's answer is an error, unless its client cancelled it, in which case it reads
      cancelled. */
  lemma ProviderErrorSurfaces(
    log: seq<Item>, m: Machine, ids: seq<OpId>, calls: seq<CallId>, y: Machine, k: nat, i: nat)
    requires Reaches(Opened(log), m) && Enabled(m, Pop(ids, calls)) && m.s.events[0].EvModelError?
    requires m.s.turns.current == Some(k) && Reaches(Popped(m, ids, calls), y)
    requires i < |y.s.turns.answers| && y.s.turns.answers[i].0 == k
    ensures var answer := y.s.turns.answers[i].1;
            if answer.clientCancelled then Respond(answer) == StoppedWith(Some(StopCancelled))
            else Respond(answer).FailedWith?
  {
    Answers.ReachedDisciplined(Opened(log), m);
    ErrorIsNoted(m, ids, calls, k);
    var m1 := Popped(m, ids, calls);
    var later :| Run(m1, later) && y == Final(m1, later);
    RunErrs(m1, later, k);
  }

  /** A provider error aborts the turn it meets exactly if a tool call still runs: then nobody else
      would end that call. The error is on record either way. */
  lemma ProviderErrorAbortsExactly(log: seq<Item>, m: Machine, ids: seq<OpId>, calls: seq<CallId>, code: nat)
    requires Reaches(Opened(log), m) && Enabled(m, Pop(ids, calls)) && m.s.events[0] == EvModelError(code)
    requires m.s.turns.current.Some?
    ensures var y, k := Popped(m, ids, calls), m.s.turns.current.value;
            && k < |m.s.turns.all| && k < |y.s.turns.all| && y.s.turns.all[k].err == Some(ProviderFailed(code))
            && (y.s.turns.all[k].cancelling <==> m.s.turns.all[k].cancelling || exists c :: Open(m.log, c))
            && (!m.s.turns.all[k].cancelling && y.s.turns.all[k].cancelling ==>
                  && y.aborts == m.aborts + [Canceller(k, ids, AbortReason(m.s.turns.all[k]), true)]
                  && Enumerates(ids, m.s))
  {
    Answers.ReachedDisciplined(Opened(log), m);
    RunningMeansOpen(log, m);
    ErrorMarks(m.s.(events := m.s.events[1..]), code);
  }

  lemma RunningMeansOpen(log: seq<Item>, m: Machine)
    requires Reaches(Opened(log), m)
    ensures m.s.sync.outstanding != map[] <==> exists c :: Open(m.log, c)
  {
    OpenedReplicated(log);
    ReachedReplicated(Opened(log), m);
    if c :| Open(m.log, c) {
      OutstandingMeansOpen(m.log, c);
    }
    if c :| c in m.s.sync.outstanding {
      OutstandingMeansOpen(m.log, c);
    }
  }

  lemma ErrorMarks(s: Session, code: nat)
    requires Answers.Disciplined(s.turns) && s.turns.current.Some?
    ensures var y, k := HandledError(s, code).turns, s.turns.current.value;
            && k < |y.all| && y.all[k].err == Some(ProviderFailed(code))
            && (y.all[k].cancelling <==> s.turns.all[k].cancelling || s.sync.outstanding != map[])
  {
  }

  /** The actor step that handles the failure of a coordinator answers the current turn, with that
      failure unless its client cancelled it. */
  lemma CoordinatorFailureAnswers(
    log: seq<Item>, m: Machine, ids: seq<OpId>, calls: seq<CallId>, gen: nat, code: nat)
    requires Reaches(Opened(log), m) && Enabled(m, Pop(ids, calls))
    requires m.s.events[0] == EvRunExit(gen, Some(code)) && m.s.turns.current.Some?
    ensures var y, k := Popped(m, ids, calls), m.s.turns.current.value;
            && y.s.turns.current.None? && Answers.Finished(y.s.turns, k)
            && var (turn, answer) := y.s.turns.answers[|m.s.turns.answers|];
               && turn == k
               && Respond(answer) == if m.s.turns.all[k].clientCancelled then StoppedWith(Some(StopCancelled))
                                     else FailedWith(CoordinatorStopped(code))
  {
    Answers.ReachedDisciplined(Opened(log), m);
  }

  /** A prompt that cannot be submitted is answered so, once, while its turn is the current one; a
      turn already answered stays as it is. */
  lemma FailedSubmissionAnswers(log: seq<Item>, m: Machine, id: InputId)
    requires Reaches(Opened(log), m) && Enabled(m, SubmitPrompt(id, false))
    ensures var y, k := After(m, SubmitPrompt(id, false)), m.transit[id].turn;
            if m.s.turns.current != Some(k) then y.s.turns == m.s.turns
            else
              && y.s.turns.current.None? && |y.s.turns.answers| == |m.s.turns.answers| + 1
              && var (turn, answer) := y.s.turns.answers[|m.s.turns.answers|];
                 && turn == k
                 && Respond(answer) == if m.s.turns.all[k].clientCancelled then StoppedWith(Some(StopCancelled))
                                       else FailedWith(SubmitFailed)
  {
    Answers.ReachedDisciplined(Opened(log), m);
    Answers.SubmitTurns(m, id, false);
  }

  /** A coordinator that ends without a failure answers nobody. */
  lemma CleanExitAnswersNobody(m: Machine, ids: seq<OpId>, calls: seq<CallId>, gen: nat)
    requires m.s.events != [] && m.s.events[0] == EvRunExit(gen, None)
    ensures Popped(m, ids, calls).s.turns == m.s.turns
  {
  }

  /** A request that failed, and was neither stopped nor given up, is reported to the actor; no other
      is. */
  lemma FailedRequestsAreReported(m: Machine, r: InnerResult)
    requires Enabled(m, EndRequest(r))
    ensures After(m, EndRequest(r)).s.events == m.s.events +
              if r.failed && !r.ctxDone && m.s.gate.userStop != m.s.gate.inflightSeq
              then [EvModelError(r.model)] else []
  {
  }

  // ---- who answers ----

  /** The step may answer: an evaluation, a coordinator that failed, or a submission that did. */
  predicate MayAnswer(m: Machine, step: Step) {
    || step.Evaluate?
    || (step.SubmitPrompt? && !step.ok)
    || (step.Pop? && m.s.events != [] && m.s.events[0].EvRunExit? && m.s.events[0].failed.Some?)
  }

  lemma EventsAnswerNobody(s: Session, ev: Event, calls: seq<CallId>)
    requires ev.EvRunExit? ==> ev.failed.None?
    ensures Handled(s, ev, calls).turns.answers == s.turns.answers
  {
    if ev.EvModelError? {
      ErrorAnswersNothing(s, ev.code);
    }
  }

  lemma ClientAnswersNobody(m: Machine, step: Step)
    requires step.Prompt? || step.Mark? || step.Steer? || step.Abort?
    ensures After(m, step).s.turns.answers == m.s.turns.answers
  {
  }

  /** No prompt is answered by anything else. */
  lemma OnlyTheseAnswer(m: Machine, step: Step)
    requires Enabled(m, step) && !MayAnswer(m, step)
    ensures After(m, step).s.turns.answers == m.s.turns.answers
  {
    match step
    case Pop(_, calls) => EventsAnswerNobody(m.s.(events := m.s.events[1..]), m.s.events[0], calls);
    case SubmitPrompt(id, ok) => Answers.SubmitTurns(m, id, ok);
    case _ => if step.Prompt? || step.Mark? || step.Steer? || step.Abort? {
      ClientAnswersNobody(m, step);
    } else {
      Answers.TurnsKept(m, step);
    }
  }
}
