/** CancelTurn flags the turn in one locked section and aborts in another. What the abort hits when
    the session moved on in between, and how a turn hit in another's place is answered. */
module LateCancels {
  import opened Harness
  import opened Mirrors
  import opened Ops
  import opened SessionSteps
  import opened SessionRuns
  import opened Answers

  /** The abort that led from `a` to `b` was of turn `j`. */
  predicate AbortsTurn(a: Turns, b: Turns, j: nat) {
    j < |a.all| && j < |b.all| && !a.all[j].cancelling && b.all[j].cancelling
  }

  // ---- what steps do to turns ----

  /** Flags stand, aborts are not undone, and an answer to an aborted turn is a failure or
      `cancelled`. */
  predicate Goes(a: Turns, b: Turns) {
    && |a.all| <= |b.all|
    && (forall j | 0 <= j < |a.all| :: (a.all[j].clientCancelled ==> b.all[j].clientCancelled) &&
          (a.all[j].cancelling ==> b.all[j].cancelling))
    && (b.answers == a.answers ||
        (|b.answers| == |a.answers| + 1 && b.answers[..|a.answers|] == a.answers && Fair(b, b.answers[|a.answers|])))
  }

  predicate Fair(ts: Turns, answer: (nat, TurnResult)) {
    answer.0 < |ts.all| && ts.all[answer.0].cancelling ==> answer.1.err.Some? || answer.1.stop == Some(StopCancelled)
  }

  lemma FinishGoes(ts: Turns, k: nat, r: TurnResult)
    requires r.err.Some? || r.stop == Some(StopCancelled) || (k < |ts.all| && !ts.all[k].cancelling)
    ensures Goes(ts, ts.Finish(k, r))
  {
  }

  lemma AbortGoes(s: Session)
    ensures Goes(s.turns, AbortMarks(s).turns)
  {
  }

  lemma MarkGoes(s: Session)
    ensures Goes(s.turns, MarkCancelled(s).turns)
  {
  }

  lemma ErrorGoes(s: Session, code: nat)
    ensures Goes(s.turns, HandledError(s, code).turns)
  {
    AbortGoes(Noted(s, code));
  }

  lemma ItemGoes(s: Session, item: Item)
    ensures Goes(s.turns, HandledItem(s, item).turns)
  {
  }

  lemma ExitGoes(s: Session, gen: nat, failed: Option<nat>)
    ensures Goes(s.turns, HandledExit(s, gen, failed).turns)
  {
    if failed.Some? && s.turns.Now().Some? {
      FinishGoes(s.turns, s.turns.current.value,
                 TurnResult(if s.turns.Now().value.cancelling then Some(StopCancelled) else None,
                            Some(CoordinatorStopped(failed.value)), false));
    }
  }

  lemma FlushGoes(s: Session, k: nat, calls: seq<CallId>)
    ensures Goes(s.turns, HandledFlush(s, k, calls).turns)
  {
  }

  lemma HandledGoes(s: Session, ev: Event, calls: seq<CallId>)
    ensures Goes(s.turns, Handled(s, ev, calls).turns)
  {
    match ev
    case EvItem(item) => ItemGoes(s, item);
    case EvModelError(code) => ErrorGoes(s, code);
    case EvRunExit(gen, failed) => ExitGoes(s, gen, failed);
    case EvCancelFlush(k) => FlushGoes(s, k, calls);
    case _ =>
  }

  lemma EvaluatedGoes(s: Session)
    ensures Goes(s.turns, Evaluated(s).0.turns)
  {
    match Judge(s)
    case Wait =>
    case SubmitSteers =>
    case AnswerCancelled =>
      FinishGoes(s.turns, s.turns.current.value, TurnResult(Some(StopCancelled), s.turns.Now().value.err, false));
    case AnswerDone =>
      var t := s.turns.Now().value;
      FinishGoes(s.turns, s.turns.current.value,
                 TurnResult(if t.stop.Some? then t.stop else Some(EndTurn), t.err, false));
  }

  lemma PromptGoes(s: Session, id: InputId)
    ensures Goes(s.turns, Prompted(s, id).0.turns)
  {
  }

  lemma SteerGoes(m: Machine, id: InputId, interrupt: bool)
    ensures Goes(m.s.turns, TakeSteer(m, id, interrupt).s.turns)
  {
  }

  lemma SubmitGoes(m: Machine, id: InputId, ok: bool)
    ensures Goes(m.s.turns, SubmittedPrompt(m, id, ok).s.turns)
  {
    if id in m.transit && m.transit[id].FromPrompt? {
      FinishGoes(m.s.turns, m.transit[id].turn, TurnResult(None, Some(SubmitFailed), false));
    }
  }

  lemma StepGoes(m: Machine, step: Step)
    requires Enabled(m, step)
    ensures Goes(m.s.turns, After(m, step).s.turns)
  {
    match step
    case Prompt(id) => PromptGoes(m.s, id);
    case SubmitPrompt(id, ok) => SubmitGoes(m, id, ok);
    case Mark => MarkGoes(m.s);
    case Abort(_) => AbortGoes(m.s);
    case Steer(id, interrupt) => SteerGoes(m, id, interrupt);
    case Pop(_, calls) => HandledGoes(m.s.(events := m.s.events[1..]), m.s.events[0], calls);
    case Evaluate => EvaluatedGoes(m.s);
    case _ => TurnsKept(m, step);
  }

  /** Every answer to an aborted turn is a failure or `cancelled`. */
  predicate AllFair(ts: Turns) {
    forall i | 0 <= i < |ts.answers| :: Fair(ts, ts.answers[i])
  }

  lemma GoesFair(a: Turns, b: Turns)
    requires Disciplined(a) && AllFair(a) && Goes(a, b) && Remembers(a, b)
    ensures AllFair(b)
  {
    forall i | 0 <= i < |a.answers|
      ensures Fair(b, b.answers[i])
    {
      assert b.answers[i] == a.answers[i] && Finished(a, a.answers[i].0);
    }
  }

  /** Through any run: flags and aborts stand, and answers to aborted turns stay fair. */
  lemma {:induction false} RunGoes(m: Machine, steps: seq<Step>)
    requires Disciplined(m.s.turns) && AllFair(m.s.turns) && Run(m, steps)
    ensures var a, b := m.s.turns, Final(m, steps).s.turns;
            && Disciplined(b) && AllFair(b) && Remembers(a, b)
            && forall j | 0 <= j < |a.all| :: (a.all[j].clientCancelled ==> b.all[j].clientCancelled) &&
                 (a.all[j].cancelling ==> b.all[j].cancelling)
    decreases |steps|
  {
    if steps != [] {
      StepDisciplined(m, steps[0]);
      StepGoes(m, steps[0]);
      GoesFair(m.s.turns, After(m, steps[0]).s.turns);
      RunGoes(After(m, steps[0]), steps[1..]);
    }
  }

  lemma ReachedFair(log: seq<Item>, m: Machine)
    requires Reaches(Opened(log), m)
    ensures Disciplined(m.s.turns) && AllFair(m.s.turns)
  {
    var steps :| Run(Opened(log), steps) && m == Final(Opened(log), steps);
    RunGoes(Opened(log), steps);
  }

  /** An aborted turn is answered with an error exactly if its client never cancelled it. */
  lemma FairAnswer(ts: Turns, i: nat)
    requires Disciplined(ts) && AllFair(ts) && i < |ts.answers| && ts.all[ts.answers[i].0].cancelling
    ensures Respond(ts.answers[i].1).FailedWith? <==> !ts.all[ts.answers[i].0].clientCancelled
  {
    assert Fair(ts, ts.answers[i]);
  }

  // ---- what the late abort hits ----

  /** However the session goes on after the flag: turn `k` keeps it, and turns before the flag
      other than `k` are over. */
  lemma AfterTheFlag(log: seq<Item>, m: Machine, k: nat, y: Machine)
    requires Reaches(Opened(log), m) && m.s.turns.current == Some(k) && Reaches(After(m, Mark), y)
    ensures var ts := y.s.turns;
            && Disciplined(ts) && AllFair(ts) && k < |ts.all| && ts.all[k].clientCancelled
            && |m.s.turns.all| <= |ts.all|
            && (forall j | 0 <= j < |m.s.turns.all| && j != k :: Finished(ts, j))
  {
    var m1 := After(m, Mark);
    var steps :| Run(m1, steps) && y == Final(m1, steps);
    ReachedFair(log, m);
    MarkFlags(m, k);
    RunGoes(m1, steps);
  }

  lemma MarkFlags(m: Machine, k: nat)
    requires Disciplined(m.s.turns) && AllFair(m.s.turns) && m.s.turns.current == Some(k)
    ensures var ts := After(m, Mark).s.turns;
            && Disciplined(ts) && AllFair(ts) && |ts.all| == |m.s.turns.all| && ts.all[k].clientCancelled
            && (forall j | 0 <= j < |ts.all| && j != k :: ts.all[j].finished)
  {
    StepDisciplined(m, Mark);
    MarkGoes(m.s);
    GoesFair(m.s.turns, After(m, Mark).s.turns);
  }

  /** The client cancels turn `k`: its flag is set in state `m`, and the abort comes in state `y`,
      after any run, other cancels included. It aborts turn `k` exactly when that is still the
      current turn and nobody aborted it meanwhile. Otherwise turn `k` has been answered already,
      or is being aborted, and the abort hits whatever turn is current. */
  lemma LateAbortHits(log: seq<Item>, m: Machine, k: nat, y: Machine, ids: seq<OpId>)
    requires Reaches(Opened(log), m) && m.s.turns.current == Some(k) && Reaches(After(m, Mark), y)
    ensures var a, b := y.s.turns, StartedAbort(y, ids).s.turns;
            && k < |a.all| && a.all[k].clientCancelled
            && (AbortsTurn(a, b, k) <==> a.current == Some(k) && !a.all[k].cancelling)
            && (forall j | j != k :: AbortsTurn(a, b, j) <==> a.current == Some(j) && Abortable(a))
            && (a.current != Some(k) ==> Finished(a, k) && Count(a.answers, k) == 1)
  {
    AfterTheFlag(log, m, k, y);
  }

  /** A turn the late abort hits in place of turn `k` began after the flag was set. However the
      session goes on, it is answered, if at all, with an error, unless its own client has
      cancelled it by then. */
  lemma LateAbortBlames(log: seq<Item>, m: Machine, k: nat, y: Machine, ids: seq<OpId>, j: nat, z: Machine)
    requires Reaches(Opened(log), m) && m.s.turns.current == Some(k) && Reaches(After(m, Mark), y)
    requires j != k && AbortsTurn(y.s.turns, StartedAbort(y, ids).s.turns, j) && Reaches(StartedAbort(y, ids), z)
    ensures |m.s.turns.all| <= j < |z.s.turns.all|
    ensures forall i | 0 <= i < |z.s.turns.answers| && z.s.turns.answers[i].0 == j ::
              Respond(z.s.turns.answers[i].1).FailedWith? <==> !z.s.turns.all[j].clientCancelled
  {
    AfterTheFlag(log, m, k, y);
    HitIsCurrent(y.s, j);
    assert j >= |m.s.turns.all|;
    HitIsBlamed(y, ids, j, z);
  }

  lemma HitIsCurrent(s: Session, j: nat)
    requires Disciplined(s.turns) && AbortsTurn(s.turns, AbortMarks(s).turns, j)
    ensures s.turns.current == Some(j) && !Finished(s.turns, j)
  {
  }

  lemma HitIsBlamed(y: Machine, ids: seq<OpId>, j: nat, z: Machine)
    requires Disciplined(y.s.turns) && AllFair(y.s.turns)
    requires AbortsTurn(y.s.turns, StartedAbort(y, ids).s.turns, j) && Reaches(StartedAbort(y, ids), z)
    ensures j < |z.s.turns.all|
    ensures forall i | 0 <= i < |z.s.turns.answers| && z.s.turns.answers[i].0 == j ::
              Respond(z.s.turns.answers[i].1).FailedWith? <==> !z.s.turns.all[j].clientCancelled
  {
    var y1 := StartedAbort(y, ids);
    var steps :| Run(y1, steps) && z == Final(y1, steps);
    AbortDisciplined(y.s);
    AbortGoes(y.s);
    GoesFair(y.s.turns, y1.s.turns);
    RunGoes(y1, steps);
    forall i | 0 <= i < |z.s.turns.answers| && z.s.turns.answers[i].0 == j
      ensures Respond(z.s.turns.answers[i].1).FailedWith? <==> !z.s.turns.all[j].clientCancelled
    {
      FairAnswer(z.s.turns, i);
    }
  }

  // ---- such a cancel is within reach ----

  lemma FlaggedPrompt() returns (m: Machine)
    ensures Run(Opened([]), [Prompt(1)] + [Mark]) && m == Final(Opened([]), [Prompt(1)] + [Mark])
    ensures m.s.turns == Turns([NewTurn(1).(clientCancelled := true)], Some(0), [])
    ensures m == Opened([]).(s := m.s, transit := map[1 := FromPrompt(0)], used := {1}, accepted := [{1}])
    ensures m.s == Opened([]).s.(turns := m.s.turns, index := m.s.index) && m.s.index.inputs == {}
  {
    var m1 := After(Opened([]), Prompt(1));
    m := After(m1, Mark);
    RunOne(m1, Mark);
    RunFirst(Opened([]), Prompt(1), [Mark]);
  }

  lemma FirstPromptFails(m: Machine) returns (y: Machine)
    requires m.s.turns == Turns([NewTurn(1).(clientCancelled := true)], Some(0), [])
    requires m.transit == map[1 := FromPrompt(0)] && m.used == {1} && m.s.index.inputs == {}
    ensures Run(m, [SubmitPrompt(1, false)] + [Prompt(2)]) && y == Final(m, [SubmitPrompt(1, false)] + [Prompt(2)])
    ensures y.s.turns.current == Some(1) && Abortable(y.s.turns) && y.s.turns.Now().value == NewTurn(2)
    ensures y.s.turns.answers == [(0, TurnResult(None, Some(SubmitFailed), true))]
    ensures y.s.events == m.s.events && y.actor == m.actor && y.aborts == m.aborts
    ensures y.s.sync == m.s.sync && y.s.am == m.s.am
  {
    var m1 := After(m, SubmitPrompt(1, false));
    y := After(m1, Prompt(2));
    RunOne(m1, Prompt(2));
    RunFirst(m, SubmitPrompt(1, false), [Prompt(2)]);
  }

  lemma AbortedWithNothingRunning(m: Machine) returns (y: Machine)
    requires m.s.turns.current == Some(1) && Abortable(m.s.turns) && m.s.turns.Now().value == NewTurn(2)
    requires m.s.events == [] && m.actor.Resting? && m.aborts == [] && m.s.sync == EMPTY && m.s.am == EMPTY
    ensures Run(m, [Abort([])] + [EndAbort(0)]) && y == Final(m, [Abort([])] + [EndAbort(0)])
    ensures y.s.turns == m.s.turns.Put(NewTurn(2).(cancelling := true))
    ensures y.s.events == [EvWake] && y.actor.Resting? && y.s.am == EMPTY
  {
    assert m.s.sync.PendingOps() == {} && m.s.sync.outstanding.Keys == {};
    var m1 := After(m, Abort([]));
    assert m1.s.turns.Now().value.waitCalls == {};
    y := After(m1, EndAbort(0));
    RunOne(m1, EndAbort(0));
    RunFirst(m, Abort([]), [EndAbort(0)]);
  }

  lemma AnsweredAtOnce(m: Machine) returns (y: Machine)
    requires m.s.turns.current == Some(1) && m.s.turns.Now() == Some(NewTurn(2).(cancelling := true))
    requires m.s.events == [EvWake] && m.actor.Resting? && m.s.am == EMPTY
    ensures Run(m, [Pop([], [])] + [Evaluate]) && y == Final(m, [Pop([], [])] + [Evaluate])
    ensures y.s.turns.answers == m.s.turns.answers + [(1, TurnResult(Some(StopCancelled), None, false))]
  {
    var m1 := After(m, Pop([], []));
    assert Judge(m1.s) == AnswerCancelled;
    y := After(m1, Evaluate);
    RunOne(m1, Evaluate);
    RunFirst(m, Pop([], []), [Evaluate]);
  }

  /** A run from a new session: the first prompt's submission fails between the two sections of its
      cancel, the second prompt begins, and the abort hits it: it is answered with an error. */
  lemma LateAbortFailsNextPrompt() returns (steps: seq<Step>)
    ensures Run(Opened([]), steps)
    ensures steps == ([Prompt(1)] + [Mark]) + ([SubmitPrompt(1, false)] + [Prompt(2)]) +
                     ([Abort([])] + [EndAbort(0)]) + ([Pop([], [])] + [Evaluate])
    ensures var answers := Final(Opened([]), steps).s.turns.answers;
            && |answers| == 2
            && answers[0].0 == 0 && Respond(answers[0].1) == StoppedWith(Some(StopCancelled))
            && answers[1].0 == 1 && Respond(answers[1].1) == FailedWith(TurnAborted)
  {
    var m0 := Opened([]);
    var m1 := FlaggedPrompt();
    var m2 := FirstPromptFails(m1);
    var m3 := AbortedWithNothingRunning(m2);
    var m4 := AnsweredAtOnce(m3);
    var a, b := [Prompt(1)] + [Mark], [SubmitPrompt(1, false)] + [Prompt(2)];
    var c, d := [Abort([])] + [EndAbort(0)], [Pop([], [])] + [Evaluate];
    RunsJoin(m0, a, b);
    RunsJoin(m0, a + b, c);
    RunsJoin(m0, a + b + c, d);
    steps := a + b + c + d;
  }
}
