/** One answer per prompt, and what it may say. */
module Answers {
  import opened Harness
  import opened Mirrors
  import opened Ops
  import opened SessionSteps
  import opened SessionRuns

  /** How often turn `k` was answered. */
  function Count(answers: seq<(nat, TurnResult)>, k: nat): nat {
    if answers == [] then 0
    else Count(answers[..|answers| - 1], k) + if answers[|answers| - 1].0 == k then 1 else 0
  }

  predicate Finished(ts: Turns, k: nat) {
    k < |ts.all| && ts.all[k].finished
  }

  /** The turn in progress is the one unfinished turn; a turn is answered once, when it finishes,
      with the client's flag as it then stood. */
  ghost predicate Disciplined(ts: Turns) {
    && (ts.current.Some? ==> ts.current.value < |ts.all| && !ts.all[ts.current.value].finished)
    && (forall k | 0 <= k < |ts.all| && !ts.all[k].finished :: ts.current == Some(k))
    && (forall k :: Count(ts.answers, k) == if Finished(ts, k) then 1 else 0)
    && (forall i | 0 <= i < |ts.answers| :: Finished(ts, ts.answers[i].0) &&
          ts.answers[i].1.clientCancelled == ts.all[ts.answers[i].0].clientCancelled)
  }

  /** Nothing that happens later changes a finished turn, its flag included, or an answer. */
  ghost predicate Remembers(a: Turns, b: Turns) {
    && |a.all| <= |b.all|
    && (forall k | 0 <= k < |a.all| && a.all[k].finished :: b.all[k] == a.all[k])
    && a.answers <= b.answers
  }

  lemma CountAppend(answers: seq<(nat, TurnResult)>, a: (nat, TurnResult), k: nat)
    ensures Count(answers + [a], k) == Count(answers, k) + if a.0 == k then 1 else 0
  {
    assert (answers + [a])[..|answers|] == answers;
  }

  lemma PutDisciplined(ts: Turns, t: TurnState)
    requires Disciplined(ts) && !t.finished
    ensures Disciplined(ts.Put(t)) && Remembers(ts, ts.Put(t))
  {
    if ts.Now().Some? {
      var next := ts.Put(t);
      forall k
        ensures Finished(next, k) == Finished(ts, k)
      {
      }
    }
  }

  lemma FinishDisciplined(ts: Turns, k: nat, r: TurnResult)
    requires Disciplined(ts)
    ensures Disciplined(ts.Finish(k, r)) && Remembers(ts, ts.Finish(k, r))
  {
    if k < |ts.all| && !ts.all[k].finished {
      var next := ts.Finish(k, r);
      var a := next.answers[|ts.answers|];
      forall j
        ensures Count(next.answers, j) == if Finished(next, j) then 1 else 0
      {
        CountAppend(ts.answers, a, j);
        assert Finished(next, j) == (j == k || Finished(ts, j));
      }
      assert forall i | 0 <= i < |ts.answers| :: Finished(ts, ts.answers[i].0) && ts.answers[i].0 != k;
    }
  }

  lemma PromptDisciplined(s: Session, id: InputId)
    requires Disciplined(s.turns) && s.turns.current.None?
    ensures Disciplined(Prompted(s, id).0.turns) && Remembers(s.turns, Prompted(s, id).0.turns)
  {
    var next := Prompted(s, id).0.turns;
    assert forall k :: Finished(next, k) == Finished(s.turns, k);
  }

  lemma AbortDisciplined(s: Session)
    requires Disciplined(s.turns)
    ensures Disciplined(AbortMarks(s).turns) && Remembers(s.turns, AbortMarks(s).turns)
  {
    if Abortable(s.turns) {
      var t := s.turns.Now().value;
      PutDisciplined(s.turns, t.(cancelling := true, waitCalls := t.waitCalls + s.sync.outstanding.Keys, steers := []));
    }
  }

  lemma ErrorDisciplined(s: Session, code: nat)
    requires Disciplined(s.turns)
    ensures Disciplined(HandledError(s, code).turns) && Remembers(s.turns, HandledError(s, code).turns)
  {
    var s1 := Noted(s, code);
    if s.turns.Running() {
      PutDisciplined(s.turns, s.turns.Now().value.(err := Some(ProviderFailed(code))));
    }
    AbortDisciplined(s1);
  }

  lemma HandledDisciplined(s: Session, ev: Event, calls: seq<CallId>)
    requires Disciplined(s.turns)
    ensures Disciplined(Handled(s, ev, calls).turns) && Remembers(s.turns, Handled(s, ev, calls).turns)
  {
    match ev
    case EvItem(item) =>
      if s.turns.Now().Some? {
        PutDisciplined(s.turns, Bookkept(s.turns.Now().value, item));
      }
    case EvModelError(code) => ErrorDisciplined(s, code);
    case EvRunExit(gen, failed) =>
      if failed.Some? && s.turns.Now().Some? {
        FinishDisciplined(s.turns, s.turns.current.value,
                          TurnResult(if s.turns.Now().value.cancelling then Some(StopCancelled) else None,
                                     Some(CoordinatorStopped(failed.value)), false));
      }
    case EvCancelFlush(k) =>
      if s.turns.Now().Some? {
        PutDisciplined(s.turns, s.turns.Now().value.(waitCalls := {}, flushed := true));
      }
    case _ =>
  }

  lemma EvaluatedDisciplined(s: Session)
    requires Disciplined(s.turns)
    ensures Disciplined(Evaluated(s).0.turns) && Remembers(s.turns, Evaluated(s).0.turns)
  {
    match Judge(s)
    case Wait =>
    case SubmitSteers => PutDisciplined(s.turns, s.turns.Now().value.(steers := []));
    case AnswerCancelled =>
      FinishDisciplined(s.turns, s.turns.current.value,
                        TurnResult(Some(StopCancelled), s.turns.Now().value.err, false));
    case AnswerDone =>
      var t := s.turns.Now().value;
      FinishDisciplined(s.turns, s.turns.current.value,
                        TurnResult(if t.stop.Some? then t.stop else Some(EndTurn), t.err, false));
  }

  lemma SteerDisciplined(m: Machine, id: InputId, interrupt: bool)
    requires Disciplined(m.s.turns)
    ensures var next := TakeSteer(m, id, interrupt).s.turns; Disciplined(next) && Remembers(m.s.turns, next)
  {
    if Abortable(m.s.turns) {
      var t := m.s.turns.Now().value;
      PutDisciplined(m.s.turns, t.(unobserved := t.unobserved + {id}));
      PutDisciplined(m.s.turns, t.(unobserved := t.unobserved + {id}, steers := t.steers + [id]));
    }
  }

  lemma SubmitDisciplined(m: Machine, id: InputId, ok: bool)
    requires Disciplined(m.s.turns)
    ensures var next := SubmittedPrompt(m, id, ok).s.turns; Disciplined(next) && Remembers(m.s.turns, next)
  {
    SubmitTurns(m, id, ok);
    if id in m.transit && m.transit[id].FromPrompt? && !ok {
      FinishDisciplined(m.s.turns, m.transit[id].turn, TurnResult(None, Some(SubmitFailed), false));
    }
  }

  lemma SubmitTurns(m: Machine, id: InputId, ok: bool)
    ensures SubmittedPrompt(m, id, ok).s.turns ==
            if id in m.transit && m.transit[id].FromPrompt? && !ok
            then m.s.turns.Finish(m.transit[id].turn, TurnResult(None, Some(SubmitFailed), false)) else m.s.turns
  {
  }

  lemma AppendsKeepTurns(m: Machine, step: Step)
    requires Appends(step) || step.Stream? || step.EndRequest? || step.Exit?
    ensures After(m, step).s.turns == m.s.turns
  {
  }

  /** The remaining steps never touch a turn. */
  lemma TurnsKept(m: Machine, step: Step)
    requires !step.Prompt? && !step.Mark? && !step.Steer? && !step.SubmitPrompt? && !step.Evaluate? && !step.Abort?
    requires !step.Pop?
    ensures After(m, step).s.turns == m.s.turns
  {
    if Appends(step) || step.Stream? || step.EndRequest? || step.Exit? {
      AppendsKeepTurns(m, step);
    }
  }

  lemma StepDisciplined(m: Machine, step: Step)
    requires Disciplined(m.s.turns) && Enabled(m, step)
    ensures Disciplined(After(m, step).s.turns) && Remembers(m.s.turns, After(m, step).s.turns)
  {
    match step
    case Prompt(id) => PromptDisciplined(m.s, id);
    case SubmitPrompt(id, ok) => SubmitDisciplined(m, id, ok);
    case Mark =>
      if m.s.turns.Running() {
        PutDisciplined(m.s.turns, m.s.turns.Now().value.(clientCancelled := true));
      }
    case Abort(_) => AbortDisciplined(m.s);
    case Steer(id, interrupt) => SteerDisciplined(m, id, interrupt);
    case Pop(_, calls) => HandledDisciplined(m.s.(events := m.s.events[1..]), m.s.events[0], calls);
    case Evaluate => EvaluatedDisciplined(m.s);
    case _ => TurnsKept(m, step);
  }

  lemma {:induction false} RunDisciplined(m: Machine, steps: seq<Step>)
    requires Disciplined(m.s.turns) && Run(m, steps)
    ensures Disciplined(Final(m, steps).s.turns)
    decreases |steps|
  {
    if steps != [] {
      StepDisciplined(m, steps[0]);
      RunDisciplined(After(m, steps[0]), steps[1..]);
    }
  }

  lemma ReachedDisciplined(a: Machine, b: Machine)
    requires Disciplined(a.s.turns) && Reaches(a, b)
    ensures Disciplined(b.s.turns)
  {
    var steps :| Run(a, steps) && b == Final(a, steps);
    RunDisciplined(a, steps);
  }

  /** The answer says cancelled exactly when the client's flag is set, and then it is never an
      error; every other abort is an error. */
  lemma CancelledMeansClient(r: TurnResult)
    ensures Respond(r) == StoppedWith(Some(StopCancelled)) <==> r.clientCancelled
    ensures r.clientCancelled ==> !Respond(r).FailedWith?
    ensures r.stop == Some(StopCancelled) && !r.clientCancelled ==> Respond(r).FailedWith?
  {
  }

  /** Answer discipline: in every run each turn has one answer if it has finished and none
      before; the current turn is unfinished; and an answer reads `cancelled`, never an error,
      exactly when the client's flag was set on its turn by the time it finished. */
  lemma OneAnswerPerTurn(log: seq<Item>, m: Machine)
    requires Reaches(Opened(log), m)
    ensures forall k :: Count(m.s.turns.answers, k) == if Finished(m.s.turns, k) then 1 else 0
    ensures m.s.turns.current.Some? ==>
              m.s.turns.current.value < |m.s.turns.all| && !Finished(m.s.turns, m.s.turns.current.value)
    ensures forall i | 0 <= i < |m.s.turns.answers| ::
              && m.s.turns.answers[i].0 < |m.s.turns.all|
              && (Respond(m.s.turns.answers[i].1) == StoppedWith(Some(StopCancelled)) <==>
                  m.s.turns.all[m.s.turns.answers[i].0].clientCancelled)
              && (m.s.turns.all[m.s.turns.answers[i].0].clientCancelled ==>
                    !Respond(m.s.turns.answers[i].1).FailedWith?)
  {
    ReachedDisciplined(Opened(log), m);
  }

  // ---- finished turns are history ----

  lemma {:induction false} FinishedTurnsAreHistory(m: Machine, steps: seq<Step>)
    requires Disciplined(m.s.turns) && Run(m, steps)
    ensures Remembers(m.s.turns, Final(m, steps).s.turns)
    decreases |steps|
  {
    if steps != [] {
      StepDisciplined(m, steps[0]);
      FinishedTurnsAreHistory(After(m, steps[0]), steps[1..]);
    }
  }

}
