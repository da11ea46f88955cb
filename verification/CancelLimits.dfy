/** When exactly a cancel is final: the converse of CancelSafety. From every other state a submission
    under way reaches the provider after all, and a run from a new session gets to such a state. */
module CancelLimits {
  import opened Harness
  import opened Mirrors
  import opened Gates
  import opened Ops
  import opened SessionSteps
  import opened SessionRuns
  import opened CancelSafety
  import opened Progress

  // ---- generations ----

  /** The running generation is the one the runtime knows, its number is new, its end is not
      posted yet, and what is on its way to an inbox is on its way to its inbox; without one the
      inbox is empty. */
  ghost predicate Connected(m: Machine) {
    && (m.live.Some? ==> m.s.gen == m.live && m.live.value < m.gens)
    && (m.s.gen.Some? ==> m.s.gen.value < m.gens)
    && (forall i | 0 <= i < |m.s.events| && m.s.events[i].EvRunExit? ::
          m.s.events[i].gen < m.gens && m.live != Some(m.s.events[i].gen))
    && (forall id | id in m.transit && m.transit[id].FromSteer? :: m.live == Some(m.transit[id].gen))
    && (m.actor.Submitting? ==> m.live == Some(m.actor.gen))
    && (m.live.None? ==> m.inbox == [])
  }

  /** Nothing about generations changes, and no exit is posted. */
  lemma SameConnected(m: Machine, y: Machine)
    requires Connected(m)
    requires y.live == m.live && y.s.gen == m.s.gen && y.gens == m.gens
    requires m.live.None? ==> y.inbox == m.inbox
    requires forall id | id in y.transit && y.transit[id].FromSteer? :: m.live == Some(y.transit[id].gen)
    requires y.actor.Submitting? ==> m.live == Some(y.actor.gen)
    requires forall i | 0 <= i < |y.s.events| && y.s.events[i].EvRunExit? :: y.s.events[i] in m.s.events
    ensures Connected(y)
  {
  }

  lemma PopConnected(m: Machine, step: Step)
    requires Connected(m) && Enabled(m, step) && step.Pop?
    ensures Connected(After(m, step))
  {
    var ev := m.s.events[0];
    HandledKeepsRecords(m.s.(events := m.s.events[1..]), ev, step.calls);
    if ev.EvRunExit? {
      assert m.s.events[0] == ev;
    }
  }

  lemma PromptConnected(m: Machine, step: Step)
    requires Connected(m) && Enabled(m, step) && (step.Prompt? || step.SubmitPrompt?)
    ensures Connected(After(m, step))
  {
    if step.SubmitPrompt? {
      var m1 := m.(transit := m.transit - {step.id});
      SameConnected(m, m1);
      assert Connected(Ensure(m1));
    }
  }

  lemma SteerConnected(m: Machine, id: InputId, interrupt: bool)
    requires Connected(m)
    ensures Connected(TakeSteer(m, id, interrupt))
  {
    SameConnected(m, TakeSteer(m, id, interrupt));
  }

  lemma ClientConnected(m: Machine, step: Step)
    requires Connected(m) && Enabled(m, step)
    requires step.SubmitSteer? || step.Evaluate? || step.SubmitNext?
    ensures Connected(After(m, step))
  {
    SameConnected(m, After(m, step));
  }

  lemma ExitConnected(m: Machine, failed: Option<nat>)
    requires Connected(m) && m.live.Some?
    ensures Connected(Exited(m, failed))
  {
  }

  lemma QuietConnected(m: Machine, step: Step)
    requires Connected(m) && Enabled(m, step)
    requires step.Mark? || step.Fire? || step.Stream? || step.EndRequest?
    ensures Connected(After(m, step))
  {
    SameConnected(m, After(m, step));
  }

  lemma OpsConnected(m: Machine, step: Step)
    requires Connected(m) && Enabled(m, step)
    requires step.Permit? || step.AddOp? || step.DoAction? || step.PumpOp? || step.Deliver? || step.CancelNext? ||
             step.EndAbort?
    ensures Connected(After(m, step))
  {
    SameConnected(m, After(m, step));
  }

  lemma AbortConnected(m: Machine, ids: seq<OpId>)
    requires Connected(m)
    ensures Connected(After(m, Abort(ids)))
  {
    SameConnected(m, After(m, Abort(ids)));
  }

  lemma AppendConnected(m: Machine, step: Step)
    requires Connected(m) && Enabled(m, step) && Appends(step)
    ensures Connected(After(m, step))
  {
    SameConnected(m, After(m, step));
  }

  lemma StepConnected(m: Machine, step: Step)
    requires Connected(m) && Enabled(m, step)
    ensures Connected(After(m, step))
  {
    match step
    case Pop(_, _) => PopConnected(m, step);
    case Prompt(_) => PromptConnected(m, step);
    case SubmitPrompt(_, _) => PromptConnected(m, step);
    case Abort(ids) => AbortConnected(m, ids);
    case Steer(id, interrupt) => SteerConnected(m, id, interrupt);
    case SubmitSteer(_) => ClientConnected(m, step);
    case Evaluate => ClientConnected(m, step);
    case SubmitNext => ClientConnected(m, step);
    case Exit(failed) => ExitConnected(m, failed);
    case Persist => AppendConnected(m, step);
    case AppendItem(_) => AppendConnected(m, step);
    case StartTurn(_, _) => AppendConnected(m, step);
    case _ => if step.Mark? || step.Fire? || step.Stream? || step.EndRequest? {
      QuietConnected(m, step);
    } else {
      OpsConnected(m, step);
    }
  }

  // ---- a dead generation's end is in the queue ----

  /** The runtime forgets a generation only when it handles its end: that end is still queued. */
  ghost predicate Posted(m: Machine) {
    m.live.None? && m.s.gen.Some? ==>
      exists i :: 0 <= i < |m.s.events| && m.s.events[i].EvRunExit? && m.s.events[i].gen == m.s.gen.value
  }

  lemma SamePosted(m: Machine, y: Machine)
    requires Posted(m) && y.live == m.live && y.s.gen == m.s.gen && m.s.events <= y.s.events
    ensures Posted(y)
  {
    if y.live.None? && y.s.gen.Some? {
      var i :| 0 <= i < |m.s.events| && m.s.events[i].EvRunExit? && m.s.events[i].gen == m.s.gen.value;
      assert y.s.events[i] == m.s.events[i];
    }
  }

  lemma PopPosted(m: Machine, step: Step)
    requires Posted(m) && Enabled(m, step) && step.Pop?
    ensures Posted(After(m, step))
  {
    var ev := m.s.events[0];
    var s := m.s.(events := m.s.events[1..]);
    HandledKeepsRecords(s, ev, step.calls);
    var y := After(m, step);
    if y.live.None? && y.s.gen.Some? {
      var i :| 0 <= i < |m.s.events| && m.s.events[i].EvRunExit? && m.s.events[i].gen == m.s.gen.value;
      assert i > 0 && s.events[i - 1] == m.s.events[i];
      assert y.s.events[i - 1] == s.events[i - 1];
    }
  }

  lemma ExitPosted(m: Machine, failed: Option<nat>)
    requires Connected(m) && m.live.Some?
    ensures Posted(Exited(m, failed))
  {
    var y := Exited(m, failed);
    assert y.s.events[|m.s.events|] == EvRunExit(m.live.value, failed);
  }

  lemma ClientPosted(m: Machine, step: Step)
    requires Posted(m) && (step.Prompt? || step.Mark? || step.Steer? || step.SubmitSteer? || step.SubmitNext?)
    ensures Posted(After(m, step))
  {
    SamePosted(m, After(m, step));
  }

  lemma SubmitPosted(m: Machine, id: InputId, ok: bool)
    requires Posted(m)
    ensures Posted(SubmittedPrompt(m, id, ok))
  {
  }

  lemma ServerPosted(m: Machine, step: Step)
    requires Posted(m) && (step.Evaluate? || Appends(step) || step.Fire? || step.Stream? || step.EndRequest?)
    ensures Posted(After(m, step))
  {
    SamePosted(m, After(m, step));
  }

  lemma OpsPosted(m: Machine, step: Step)
    requires Posted(m)
    requires step.Permit? || step.AddOp? || step.DoAction? || step.PumpOp? || step.Deliver? || step.CancelNext? ||
             step.EndAbort?
    ensures Posted(After(m, step))
  {
    SamePosted(m, After(m, step));
  }

  lemma AbortPosted(m: Machine, ids: seq<OpId>)
    requires Posted(m)
    ensures Posted(After(m, Abort(ids)))
  {
    SamePosted(m, After(m, Abort(ids)));
  }

  lemma StepPosted(m: Machine, step: Step)
    requires Posted(m) && Connected(m) && Enabled(m, step)
    ensures Posted(After(m, step))
  {
    match step
    case Pop(_, _) => PopPosted(m, step);
    case Exit(failed) => ExitPosted(m, failed);
    case SubmitPrompt(id, ok) => SubmitPosted(m, id, ok);
    case Abort(ids) => AbortPosted(m, ids);
    case _ => if step.Prompt? || step.Mark? || step.Steer? || step.SubmitSteer? || step.SubmitNext? {
      ClientPosted(m, step);
    } else if step.Evaluate? || Appends(step) || step.Fire? || step.Stream? || step.EndRequest? {
      ServerPosted(m, step);
    } else {
      OpsPosted(m, step);
    }
  }

  lemma {:induction false} RunConnected(m: Machine, steps: seq<Step>)
    requires Connected(m) && Posted(m) && Run(m, steps)
    ensures Connected(Final(m, steps)) && Posted(Final(m, steps))
    decreases |steps|
  {
    if steps != [] {
      StepConnected(m, steps[0]);
      StepPosted(m, steps[0]);
      RunConnected(After(m, steps[0]), steps[1..]);
    }
  }

  lemma ReachedConnected(log: seq<Item>, m: Machine)
    requires Reaches(Opened(log), m)
    ensures Connected(m) && Posted(m)
  {
    var steps :| Run(Opened(log), steps) && m == Final(Opened(log), steps);
    RunConnected(Opened(log), steps);
  }

  // ---- an uncovered submission gets through ----

  /** A parked gate will let the next request through: it answers an input nobody parked. */
  predicate Loud(m: Machine, id: InputId) {
    m.live.Some? && InputReason(id) in m.s.sync.reasons && id !in m.s.gate.parkedInputs
  }

  lemma LoudRequest(m: Machine, id: InputId) returns (steps: seq<Step>)
    requires Loud(m, id)
    ensures Run(m, steps) && NoPrompt(steps) && Final(m, steps).s.gate.providerCalls == m.s.gate.providerCalls + 1
  {
    var m1 := m;
    steps := [];
    if m.s.gate.inflight {
      var r := InnerResult(true, false, Response(1, [], StopComplete), 1, 0);
      RunOne(m, EndRequest(r));
      steps := [EndRequest(r)];
      m1 := After(m, EndRequest(r));
    }
    var turnId := Unused(m.issued);
    RequestGetsThrough(m1, id, turnId);
    RunOne(m1, StartTurn(turnId, 1));
    RunsJoin(m, steps, [StartTurn(turnId, 1)]);
    steps := steps + [StartTurn(turnId, 1)];
  }

  lemma RequestGetsThrough(m: Machine, id: InputId, turnId: TurnId)
    requires Loud(m, id) && !m.s.gate.inflight && turnId != NO_ID && turnId !in m.issued
    ensures Enabled(m, StartTurn(turnId, 1))
    ensures After(m, StartTurn(turnId, 1)).s.gate.providerCalls == m.s.gate.providerCalls + 1
  {
    var i :| 0 <= i < |m.s.sync.reasons| && m.s.sync.reasons[i] == InputReason(id);
    assert !ParkedReason(m.s.gate, m.s.sync.reasons[i]);
  }

  /** The inbox is persisted in order until `id` is. */
  lemma {:induction false} InboxGetsLoud(m: Machine, id: InputId) returns (steps: seq<Step>)
    requires m.live.Some? && id in m.inbox && id !in m.s.gate.parkedInputs
    ensures Run(m, steps) && NoPrompt(steps) && Loud(Final(m, steps), id)
    ensures Final(m, steps).s.gate == m.s.gate
    decreases |m.inbox|
  {
    RunOne(m, Persist);
    var m1 := After(m, Persist);
    steps := [Persist];
    if m.inbox[0] == id {
      assert m1.s.sync.reasons[|m.s.sync.reasons|] == InputReason(id);
    } else {
      assert id in m1.inbox;
      var more := InboxGetsLoud(m1, id);
      RunsJoin(m, steps, more);
      steps := steps + more;
    }
  }

  /** Whatever is on its way can be in the inbox, the gate unchanged, within a few steps. */
  lemma {:induction false} ArrivesInInbox(m: Machine, id: InputId) returns (steps: seq<Step>)
    requires Connected(m) && m.live.Some? && OnTheWay(m, id)
    ensures Run(m, steps) && NoPrompt(steps)
    ensures var y := Final(m, steps); y.live.Some? && id in y.inbox && y.s.gate == m.s.gate
    decreases if m.actor.Submitting? then |m.actor.steers| else 0
  {
    if id in m.inbox {
      steps := [];
    } else if id in m.transit {
      var step := if m.transit[id].FromPrompt? then SubmitPrompt(id, true) else SubmitSteer(id);
      RunOne(m, step);
      steps := [step];
    } else {
      RunOne(m, SubmitNext);
      var m1 := After(m, SubmitNext);
      StepConnected(m, SubmitNext);
      var more := ArrivesInInbox(m1, id);
      RunsJoin(m, [SubmitNext], more);
      steps := [SubmitNext] + more;
    }
  }

  lemma LiveGetsThrough(m: Machine, id: InputId) returns (steps: seq<Step>)
    requires Connected(m) && m.live.Some? && OnTheWay(m, id) && id !in m.s.gate.parkedInputs
    ensures Run(m, steps) && NoPrompt(steps) && Final(m, steps).s.gate.providerCalls == m.s.gate.providerCalls + 1
  {
    var arrive := ArrivesInInbox(m, id);
    var m1 := Final(m, arrive);
    var persist := InboxGetsLoud(m1, id);
    var m2 := Final(m1, persist);
    var request := LoudRequest(m2, id);
    RunsJoin(m, arrive, persist);
    RunsJoin(m, arrive + persist, request);
    steps := arrive + persist + request;
  }

  /** With no coordinator running, the actor first works off its queue until it has forgotten the
      dead one; the stalled prompt then starts the next. */
  lemma {:induction false} Revives(m: Machine, id: InputId) returns (steps: seq<Step>)
    requires Connected(m) && Posted(m) && Manned(m) && m.live.None? && OnTheWay(m, id) && !Abortable(m.s.turns)
    ensures Run(m, steps) && NoPrompt(steps)
    ensures var y := Final(m, steps); Connected(y) && y.live.Some? && OnTheWay(y, id) && y.s.gate == m.s.gate
    decreases Work(m)
  {
    assert id in m.transit && m.transit[id].FromPrompt?;
    if m.s.gen.None? {
      StepConnected(m, SubmitPrompt(id, true));
      RunOne(m, SubmitPrompt(id, true));
      steps := [SubmitPrompt(id, true)];
    } else {
      var step := ActorMoves(m);
      InternalShrinks(m, step);
      var y := After(m, step);
      ActorKeeps(m, step);
      StepConnected(m, step);
      StepPosted(m, step);
      StepManned(m, step);
      var more := Revives(y, id);
      RunFirst(m, step, more);
      steps := [step] + more;
    }
  }

  /** What the actor does on its way changes neither the gate nor what is on its way. */
  lemma ActorKeeps(m: Machine, step: Step)
    requires Enabled(m, step) && Internal(step) && !step.Fire? && !Abortable(m.s.turns)
    ensures var y := After(m, step);
            && y.live == m.live && y.transit == m.transit && y.s.gate == m.s.gate && !Abortable(y.s.turns)
  {
    if step.Pop? {
      HandledKeepsGate(m.s.(events := m.s.events[1..]), m.s.events[0], step.calls);
    } else if step.Evaluate? {
      EvaluatedKeepsQuiet(m.s);
    }
  }

  lemma UncoveredGetsThrough(m: Machine, id: InputId) returns (steps: seq<Step>)
    requires Connected(m) && Posted(m) && Manned(m) && OnTheWay(m, id) && id !in m.s.gate.parkedInputs
    requires !Abortable(m.s.turns)
    ensures Run(m, steps) && NoPrompt(steps) && Final(m, steps).s.gate.providerCalls == m.s.gate.providerCalls + 1
  {
    if m.live.Some? {
      steps := LiveGetsThrough(m, id);
    } else {
      var revive := Revives(m, id);
      var more := LiveGetsThrough(Final(m, revive), id);
      RunsJoin(m, revive, more);
      steps := revive + more;
    }
  }

  // ---- exactly ----

  /** An abort is final exactly when it is covered. A submission left over from an earlier turn,
      stalled between its locked section and the inbox, is not, and its request gets through,
      whether or not a coordinator runs at the abort. */
  lemma CancelIsFinalExactlyWhenCovered(log: seq<Item>, m: Machine, ids: seq<OpId>)
    requires SensibleLog(log) && Reaches(Opened(log), m)
    requires Abortable(m.s.turns) && Enumerates(ids, m.s)
    ensures Silent(After(m, Abort(ids))) <==> Covered(m)
  {
    if Covered(m) {
      CancelIsFinal(log, m, ids);
    } else {
      ReachedConnected(log, m);
      ReachedManned(log, m);
      UncoveredIsNotFinal(m, ids);
    }
  }

  lemma UncoveredIsNotFinal(m: Machine, ids: seq<OpId>)
    requires Connected(m) && Posted(m) && Manned(m) && Abortable(m.s.turns) && !Covered(m)
    ensures !Silent(After(m, Abort(ids)))
  {
    var id :| OnTheWay(m, id) && id !in m.s.index.inputs &&
              id !in m.s.turns.Now().value.unobserved && id !in m.s.gate.parkedInputs;
    AbortConnected(m, ids);
    AbortPosted(m, ids);
    AbortManned(m, ids);
    AbortLeavesUncovered(m, ids, id);
    var steps := UncoveredGetsThrough(StartedAbort(m, ids), id);
  }

  lemma AbortLeavesUncovered(m: Machine, ids: seq<OpId>, id: InputId)
    requires Abortable(m.s.turns) && OnTheWay(m, id) && id !in m.s.index.inputs
    requires id !in m.s.turns.Now().value.unobserved && id !in m.s.gate.parkedInputs
    ensures var y := StartedAbort(m, ids);
            OnTheWay(y, id) && id !in y.s.gate.parkedInputs && !Abortable(y.s.turns)
  {
  }

  // ---- an uncovered abort is within reach ----

  /** Between turns, with no coordinator and a parked gate, submission `stalled` still under way. */
  predicate Stalled(m: Machine, stalled: InputId, id: InputId) {
    && m.s.turns.current.None? && m.s.gen.None? && m.s.gate.parked && !m.s.gate.inflight
    && stalled in m.transit && stalled !in m.s.index.inputs && id != stalled
    && id !in m.used && id !in m.s.index.inputs && id !in m.s.gate.parkedInputs
  }

  lemma NextPromptArrives(m: Machine, stalled: InputId, id: InputId) returns (y: Machine)
    requires Stalled(m, stalled, id)
    ensures Run(m, [Prompt(id), SubmitPrompt(id, true)]) && y == Final(m, [Prompt(id), SubmitPrompt(id, true)])
    ensures y.inbox == [id] && y.live.Some? && stalled in y.transit && y.s.gate == m.s.gate
    ensures y.s.index.inputs == m.s.index.inputs && y.s.sync == m.s.sync
    ensures Abortable(y.s.turns) && y.s.turns.Now().value.unobserved == {id}
  {
    var m1 := After(m, Prompt(id));
    assert Abortable(m1.s.turns) && m1.s.turns.Now().value.unobserved == {id};
    y := After(m1, SubmitPrompt(id, true));
    RunOne(m1, SubmitPrompt(id, true));
    RunFirst(m, Prompt(id), [SubmitPrompt(id, true)]);
  }

  lemma NextRequestOpens(m: Machine, stalled: InputId, id: InputId, turnId: TurnId) returns (y: Machine)
    requires m.inbox == [id] && m.live.Some? && !m.s.gate.inflight && m.s.gate.parked && id !in m.s.gate.parkedInputs
    requires stalled in m.transit && stalled !in m.s.index.inputs && id != stalled
    requires Abortable(m.s.turns) && m.s.turns.Now().value.unobserved == {id}
    requires turnId != NO_ID && turnId !in m.issued
    ensures Run(m, [Persist, StartTurn(turnId, 1)]) && y == Final(m, [Persist, StartTurn(turnId, 1)])
    ensures Abortable(y.s.turns) && y.live.Some? && !Covered(y)
  {
    var m1 := After(m, Persist);
    assert m1.s.sync.reasons[|m.s.sync.reasons|] == InputReason(id);
    RequestGetsThrough(m1, id, turnId);
    y := After(m1, StartTurn(turnId, 1));
    RunOne(m1, StartTurn(turnId, 1));
    RunFirst(m, Persist, [StartTurn(turnId, 1)]);
    OpenGateUncovers(m, m1, y, stalled, id, turnId);
  }

  lemma OpenGateUncovers(m: Machine, m1: Machine, y: Machine, stalled: InputId, id: InputId, turnId: TurnId)
    requires m.inbox == [id] && m.live.Some? && m.s.gate.parked && m1 == After(m, Persist)
    requires y == Started(m1, turnId, 1) && y.s.gate.providerCalls == m1.s.gate.providerCalls + 1
    requires stalled in m.transit && stalled !in m.s.index.inputs && id != stalled
    requires Abortable(m.s.turns) && m.s.turns.Now().value.unobserved == {id}
    ensures Abortable(y.s.turns) && y.live.Some? && !Covered(y)
  {
    assert y.s.gate.parkedInputs == {} && y.s.index.inputs == m.s.index.inputs + {id};
    assert OnTheWay(y, stalled);
  }

  /** A prompt that stalled before its submission while its turn was answered: once the next
      prompt's own request has opened the gate, an abort of that next turn is uncovered. */
  lemma StalledPromptEscapes(m: Machine, stalled: InputId, id: InputId) returns (steps: seq<Step>)
    requires Stalled(m, stalled, id)
    ensures Run(m, steps)
    ensures var y := Final(m, steps); Abortable(y.s.turns) && y.live.Some? && !Covered(y)
  {
    var m1 := NextPromptArrives(m, stalled, id);
    var turnId := Unused(m1.issued);
    var m2 := NextRequestOpens(m1, stalled, id, turnId);
    RunsJoin(m, [Prompt(id), SubmitPrompt(id, true)], [Persist, StartTurn(turnId, 1)]);
    steps := [Prompt(id), SubmitPrompt(id, true)] + [Persist, StartTurn(turnId, 1)];
  }

  lemma PromptAborted(m: Machine, id: InputId) returns (y: Machine)
    requires m == Opened([])
    ensures Run(m, [Prompt(id)] + [Abort([]), EndAbort(0)]) && y == Final(m, [Prompt(id)] + [Abort([]), EndAbort(0)])
    ensures y == m.(s := y.s, transit := map[id := FromPrompt(0)], used := {id}, accepted := [{id}])
    ensures y.s.events == [EvWake] && y.s.am == EMPTY && y.s.gen.None? && y.s.index.inputs == {}
    ensures y.s.gate.parked && !y.s.gate.inflight && y.s.gate.parkedInputs == {id}
    ensures y.s.turns.Running() && y.s.turns.Now().value.cancelling && y.s.turns.Now().value.waitCalls == {}
  {
    var m1 := After(m, Prompt(id));
    assert m1.s.sync.PendingOps() == {};
    var m2 := After(m1, Abort([]));
    y := After(m2, EndAbort(0));
    RunOne(m2, EndAbort(0));
    RunFirst(m1, Abort([]), [EndAbort(0)]);
    assert [Abort([])] + [EndAbort(0)] == [Abort([]), EndAbort(0)];
    RunFirst(m, Prompt(id), [Abort([]), EndAbort(0)]);
  }

  lemma AbortAnswered(m: Machine) returns (y: Machine)
    requires m.s.events == [EvWake] && m.actor.Resting? && !m.s.am.inflight
    requires m.s.turns.Running() && m.s.turns.Now().value.cancelling && m.s.turns.Now().value.waitCalls == {}
    ensures Run(m, [Pop([], []), Evaluate]) && y == Final(m, [Pop([], []), Evaluate])
    ensures y.transit == m.transit && y.used == m.used && y.s.gate == m.s.gate && y.s.gen == m.s.gen
    ensures y.s.index == m.s.index && y.s.turns.current.None?
  {
    var m1 := After(m, Pop([], []));
    assert m1.s.turns == m.s.turns && m1.s.am == m.s.am;
    assert Judge(m1.s) == AnswerCancelled;
    y := After(m1, Evaluate);
    RunOne(m1, Evaluate);
    RunFirst(m, Pop([], []), [Evaluate]);
  }

  /** Such a stall is five steps from a new session, and four more from an uncovered abort: some
      reachable cancel is not final. */
  lemma SomeCancelIsNotFinal() returns (m: Machine, ids: seq<OpId>)
    ensures Reaches(Opened([]), m) && Abortable(m.s.turns) && Enabled(m, Abort(ids))
    ensures !Silent(After(m, Abort(ids)))
  {
    m := UncoveredSession();
    ids := List(m.s.sync.PendingOps());
    CancelIsFinalExactlyWhenCovered([], m, ids);
  }

  lemma UncoveredSession() returns (m: Machine)
    ensures Reaches(Opened([]), m) && Abortable(m.s.turns) && !Covered(m)
  {
    var m0 := Opened([]);
    var m1 := PromptAborted(m0, 1);
    var m2 := AbortAnswered(m1);
    var first, second := [Prompt(1)] + [Abort([]), EndAbort(0)], [Pop([], []), Evaluate];
    RunsJoin(m0, first, second);
    var third := StalledPromptEscapes(m2, 1, 2);
    RunsJoin(m0, first + second, third);
    m := Final(m0, first + second + third);
  }
}
