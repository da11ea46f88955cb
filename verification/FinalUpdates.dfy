/** An answer after a wait comes after the final updates of what was waited for.

    From the moment a turn waits for a call, the call is waited for or has been reported, whatever
    happens: a settled call is reported as it stops being waited for, a flush reports what it empties.
    And an aborted turn is answered only when it waits for nothing. */
module FinalUpdates {
  import opened Harness
  import opened Mirrors
  import opened Ops
  import opened Projection
  import opened SessionSteps
  import opened SessionRuns
  import opened MirrorLog
  import opened Replicas
  import opened Answers
  import opened LateCancels
  import opened CancelledWork
  import opened ToolCalls

  /** While turn `k` runs, each of `calls` is still waited for or has had its final update. */
  ghost predicate Accounted(m: Machine, k: nat, calls: set<CallId>) {
    && k < |m.s.turns.all|
    && (m.s.turns.current == Some(k) && m.s.turns.Now().Some? ==>
          forall c | c in calls :: c in m.s.turns.Now().value.waitCalls || c in m.s.view.reported)
  }

  lemma ItemAccounted(m: Machine, step: Step, k: nat, calls: set<CallId>)
    requires Accounted(m, k, calls) && AllTold(m.s.view) && InPlay(m.s)
    requires Enabled(m, step) && step.Pop? && m.s.events[0].EvItem?
    ensures Accounted(After(m, step), k, calls)
  {
    var item := m.s.events[0].item;
    if item.CallStatus? {
      ReportTold(m.s.view, m.s.index.calls, CallResult(item.status.callId, ResultFailed(item.status)));
    } else {
      StepTold(m, step);
    }
  }

  lemma FlushAccounted(m: Machine, step: Step, k: nat, calls: set<CallId>)
    requires Accounted(m, k, calls) && AllTold(m.s.view) && InPlay(m.s)
    requires Enabled(m, step) && step.Pop? && m.s.events[0].EvCancelFlush?
    ensures Accounted(After(m, step), k, calls)
  {
    var s, turn := m.s.(events := m.s.events[1..]), m.s.events[0].turn;
    FlushReports(s, turn, step.calls);
    assert After(m, step).s == HandledFlush(s, turn, step.calls);
  }

  lemma FlushReports(s: Session, turn: nat, calls: seq<CallId>)
    requires s.turns.Now().Some? && s.turns.current == Some(turn) ==>
               forall c :: c in calls <==> c in s.turns.Now().value.waitCalls
    requires AllTold(s.view) && InPlay(s)
    ensures var y := HandledFlush(s, turn, calls);
            && s.view.reported <= y.view.reported
            && |y.turns.all| == |s.turns.all| && y.turns.current == s.turns.current
            && (s.turns.Now().Some? && y.turns.Now().Some? ==>
                  forall c | c in s.turns.Now().value.waitCalls ::
                    c in y.turns.Now().value.waitCalls || c in y.view.reported)
  {
    if s.turns.current == Some(turn) && s.turns.Now().Some? {
      assert forall i | 0 <= i < |calls| :: calls[i] in calls;
      ReportAllTold(s.view, s.index.calls, calls, s.turns.Now().value.clientCancelled);
    }
  }

  lemma ErrorKeepsWaits(s: Session, code: nat)
    ensures var y := HandledError(s, code);
            && y.view == s.view && y.turns.current == s.turns.current
            && |y.turns.all| == |s.turns.all|
            && (s.turns.Now().Some? ==> y.turns.Now().Some? &&
                                        s.turns.Now().value.waitCalls <= y.turns.Now().value.waitCalls)
  {
  }

  lemma PlainAccounted(m: Machine, step: Step, k: nat, calls: set<CallId>)
    requires Accounted(m, k, calls) && AllTold(m.s.view) && InPlay(m.s) && Enabled(m, step) && step.Pop?
    requires !m.s.events[0].EvItem? && !m.s.events[0].EvCancelFlush? && !m.s.events[0].EvModelError?
    ensures Accounted(After(m, step), k, calls)
  {
    StepTold(m, step);
  }

  lemma PopAccounted(m: Machine, step: Step, k: nat, calls: set<CallId>)
    requires Accounted(m, k, calls) && AllTold(m.s.view) && InPlay(m.s) && Enabled(m, step) && step.Pop?
    ensures Accounted(After(m, step), k, calls)
  {
    var ev := m.s.events[0];
    if ev.EvItem? {
      ItemAccounted(m, step, k, calls);
    } else if ev.EvCancelFlush? {
      FlushAccounted(m, step, k, calls);
    } else if ev.EvModelError? {
      ErrorKeepsWaits(m.s.(events := m.s.events[1..]), ev.code);
    } else {
      PlainAccounted(m, step, k, calls);
    }
  }

  lemma ClientAccounted(m: Machine, step: Step, k: nat, calls: set<CallId>)
    requires Accounted(m, k, calls) && Enabled(m, step)
    requires step.Prompt? || step.Mark? || step.Steer?
    ensures Accounted(After(m, step), k, calls)
  {
    ClientShowsNothing(m, step);
  }

  lemma EndingAccounted(m: Machine, step: Step, k: nat, calls: set<CallId>)
    requires Accounted(m, k, calls) && (step.SubmitPrompt? || step.Evaluate?)
    ensures Accounted(After(m, step), k, calls)
  {
    ClientShowsNothing(m, step);
  }

  lemma AbortAccounted(m: Machine, ids: seq<OpId>, k: nat, calls: set<CallId>)
    requires Accounted(m, k, calls)
    ensures Accounted(After(m, Abort(ids)), k, calls)
  {
  }

  lemma OthersAccounted(m: Machine, step: Step, k: nat, calls: set<CallId>)
    requires Accounted(m, k, calls) && Enabled(m, step)
    requires !step.Pop? && !step.Abort? && !step.Prompt? && !step.Mark? && !step.Steer? && !step.SubmitPrompt? &&
             !step.Evaluate?
    ensures Accounted(After(m, step), k, calls)
  {
    OnlyPopShows(m, step);
    TurnsKept(m, step);
  }

  lemma StepAccounted(m: Machine, step: Step, k: nat, calls: set<CallId>)
    requires Accounted(m, k, calls) && AllTold(m.s.view) && InPlay(m.s) && Enabled(m, step)
    ensures Accounted(After(m, step), k, calls)
  {
    match step
    case Pop(_, _) => PopAccounted(m, step, k, calls);
    case Abort(ids) => AbortAccounted(m, ids, k, calls);
    case Prompt(_) => ClientAccounted(m, step, k, calls);
    case Mark => ClientAccounted(m, step, k, calls);
    case Steer(_, _) => ClientAccounted(m, step, k, calls);
    case SubmitPrompt(_, _) => EndingAccounted(m, step, k, calls);
    case Evaluate => EndingAccounted(m, step, k, calls);
    case _ => OthersAccounted(m, step, k, calls);
  }

  lemma {:induction false} RunAccounted(m: Machine, steps: seq<Step>, k: nat, calls: set<CallId>)
    requires Accounted(m, k, calls) && AllTold(m.s.view) && InPlay(m.s) && Run(m, steps)
    ensures Accounted(Final(m, steps), k, calls)
    decreases |steps|
  {
    if steps != [] {
      StepAccounted(m, steps[0], k, calls);
      StepTold(m, steps[0]);
      StepInPlay(m, steps[0]);
      RunAccounted(After(m, steps[0]), steps[1..], k, calls);
    }
  }

  /** When evaluate answers an aborted turn, every call the turn ever waited for has its final
      update in what was sent. */
  lemma AnswerFollowsFinalUpdates(log: seq<Item>, m: Machine, y: Machine, k: nat, c: CallId)
    requires SensibleLog(log) && Reaches(Opened(log), m) && Reaches(m, y)
    requires m.s.turns.current == Some(k) && m.s.turns.Now().Some? && c in m.s.turns.Now().value.waitCalls
    requires y.s.turns.current == Some(k) && Judge(y.s) == AnswerCancelled
    ensures Terminal in Story(y.s.view.sent, c)
  {
    OpenedInPlay(log);
    ReachedTold(Opened(log), m);
    ReachedTold(m, y);
    var later :| Run(m, later) && y == Final(m, later);
    RunAccounted(m, later, k, {c});
    var v := y.s.view;
    assert Told(v, c) && c in v.reported;
    assert Story(v.sent, c)[|Story(v.sent, c)| - 1] == Terminal;
  }

  /** And an abort makes its turn wait for every call that runs: a call that was running when its turn
      was aborted has had its final update by the time evaluate answers the turn. */
  lemma CancelledCallsAreReported(
    log: seq<Item>, m: Machine, ids: seq<OpId>, y: Machine, k: nat, c: CallId)
    requires SensibleLog(log) && Reaches(Opened(log), m) && Enabled(m, Abort(ids)) && Abortable(m.s.turns)
    requires m.s.turns.current == Some(k) && Open(m.log, c) && Reaches(After(m, Abort(ids)), y)
    requires y.actor.MustEvaluate? && y.s.turns.current == Some(k) && Finished(After(y, Evaluate).s.turns, k)
    ensures Terminal in Story(y.s.view.sent, c)
  {
    AbortWaitsFor(log, m, ids, k, c);
    AbortReaches(log, m, ids);
    AbortedAndAnswered(log, After(m, Abort(ids)), y, k, c);
  }

  lemma AbortedAndAnswered(log: seq<Item>, m: Machine, y: Machine, k: nat, c: CallId)
    requires SensibleLog(log) && Reaches(Opened(log), m) && Reaches(m, y)
    requires m.s.turns.current == Some(k) && m.s.turns.Now().Some? && c in m.s.turns.Now().value.waitCalls
    requires m.s.turns.Now().value.cancelling && Disciplined(m.s.turns) && AllFair(m.s.turns)
    requires y.s.turns.current == Some(k) && Finished(EvaluatedStep(y).s.turns, k)
    ensures Terminal in Story(y.s.view.sent, c)
  {
    StillAborted(m, y, k);
    AnsweredAsAborted(y, k);
    AnswerFollowsFinalUpdates(log, m, y, k, c);
  }

  lemma AbortWaitsFor(log: seq<Item>, m: Machine, ids: seq<OpId>, k: nat, c: CallId)
    requires Reaches(Opened(log), m) && Abortable(m.s.turns) && m.s.turns.current == Some(k) && Open(m.log, c)
    ensures var ts := After(m, Abort(ids)).s.turns;
            && ts.current == Some(k) && ts.Now().Some? && ts.Now().value.cancelling && c in ts.Now().value.waitCalls
            && Disciplined(ts) && AllFair(ts)
  {
    OpenedReplicated(log);
    ReachedReplicated(Opened(log), m);
    OutstandingMeansOpen(m.log, c);
    ReachedFair(log, m);
    AbortDisciplined(m.s);
    AbortGoes(m.s);
    GoesFair(m.s.turns, AbortMarks(m.s).turns);
  }

  lemma StillAborted(m: Machine, y: Machine, k: nat)
    requires Disciplined(m.s.turns) && AllFair(m.s.turns) && Reaches(m, y)
    requires k < |m.s.turns.all| && m.s.turns.all[k].cancelling
    ensures Disciplined(y.s.turns) && k < |y.s.turns.all| && y.s.turns.all[k].cancelling
  {
    var later :| Run(m, later) && y == Final(m, later);
    RunGoes(m, later);
  }

  lemma AnsweredAsAborted(y: Machine, k: nat)
    requires Disciplined(y.s.turns) && y.s.turns.current == Some(k) && y.s.turns.all[k].cancelling
    requires Finished(EvaluatedStep(y).s.turns, k)
    ensures Judge(y.s) == AnswerCancelled
  {
  }

  lemma AbortReaches(log: seq<Item>, m: Machine, ids: seq<OpId>)
    requires Reaches(Opened(log), m) && Enabled(m, Abort(ids))
    ensures Reaches(Opened(log), After(m, Abort(ids)))
  {
    var before :| Run(Opened(log), before) && m == Final(Opened(log), before);
    RunOne(m, Abort(ids));
    RunsJoin(Opened(log), before, [Abort(ids)]);
  }
}
