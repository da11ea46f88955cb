/** After a cancel the model is first asked again only about something new, whatever prompts follow;
    after a restart too, unless the process ended while its request was in flight. */
module Restarts {
  import opened Harness
  import opened Mirrors
  import opened Gates
  import opened Ops
  import opened SessionSteps
  import opened SessionRuns
  import opened CancelSafety
  import opened MirrorLog
  import opened Progress

  /** The gate is parked, and so is everything the next request could come to answer by itself. */
  ghost predicate Hushed(s: Session) {
    && s.gate.parked
    && AllParked(s.gate, s.sync.reasons)
    && s.sync.outstanding.Keys <= s.gate.parkedCalls
  }

  /** No step records an input the gate does not know as parked, or a response that asks for calls
      the gate would not know. */
  ghost predicate NothingNew(m: Machine, steps: seq<Step>)
    decreases |steps|
  {
    steps == [] ||
    (&& (steps[0].Persist? && m.inbox != [] ==> m.inbox[0] in m.s.gate.parkedInputs)
     && (steps[0].AppendItem? && steps[0].item.ModelResponse? ==>
           m.s.index.refuseNew || CallIds(steps[0].item.response.output) <= m.s.gate.parkedCalls)
     && NothingNew(After(m, steps[0]), steps[1..]))
  }

  /** Nothing is taken back, and no request begins. */
  predicate StaysParked(g: GateState, h: GateState) {
    && (g.parked ==> h.parked) && g.parkedCalls <= h.parkedCalls && g.parkedInputs <= h.parkedInputs
    && h.providerCalls == g.providerCalls
  }

  lemma QuietHushed(s: Session, t: Session)
    requires Hushed(s) && t.sync == s.sync && StaysParked(s.gate, t.gate)
    ensures Hushed(t)
  {
    assert forall r :: ParkedReason(s.gate, r) ==> ParkedReason(t.gate, r);
  }

  lemma AppendHushed(s: Session, item: Item)
    requires Hushed(s) && !item.Turn? && (item.Input? ==> item.kind != Heartbeat)
    requires item.Input? && item.kind == External ==> item.id in s.gate.parkedInputs
    requires item.ModelResponse? ==> s.index.refuseNew || CallIds(item.response.output) <= s.gate.parkedCalls
    ensures Hushed(Observed(s, item)) && StaysParked(s.gate, Observed(s, item).gate)
  {
    var t := Observed(s, item);
    assert forall r :: ParkedReason(s.gate, r) ==> ParkedReason(t.gate, r);
    if item.ModelResponse? {
      assert CallIds(item.response.output) <= t.gate.parkedCalls;
    }
  }

  lemma StartHushed(m: Machine, turnId: TurnId, mutedId: ResponseId)
    requires Hushed(m.s)
    ensures Hushed(Started(m, turnId, mutedId).s)
    ensures Started(m, turnId, mutedId).s.gate.providerCalls == m.s.gate.providerCalls
  {
  }

  lemma AbortStaysParked(s: Session)
    ensures StaysParked(s.gate, AbortMarks(s).gate)
  {
  }

  lemma HandledStaysParked(s: Session, ev: Event, calls: seq<CallId>)
    ensures StaysParked(s.gate, Handled(s, ev, calls).gate)
  {
    if ev.EvModelError? {
      AbortStaysParked(Noted(s, ev.code));
    }
  }

  lemma ClientStaysParked(m: Machine, step: Step)
    requires step.Prompt? || step.SubmitPrompt? || step.Mark? || step.Steer? || step.SubmitSteer? ||
             step.Evaluate? || step.SubmitNext?
    ensures After(m, step).s.gate == m.s.gate
  {
  }

  lemma OthersStayParked(m: Machine, step: Step)
    requires step.Permit? || step.Fire? || step.Exit? || step.AddOp? || step.DoAction? || step.PumpOp? ||
             step.Deliver? || step.CancelNext? || step.EndAbort?
    ensures After(m, step).s.gate == m.s.gate
  {
  }

  lemma RequestStaysParked(m: Machine, step: Step)
    requires step.Stream? || step.EndRequest?
    ensures StaysParked(m.s.gate, After(m, step).s.gate)
  {
    if step.Stream? {
      StreamKeepsMarks(m.s.gate, step.delta);
    } else {
      EndForgets(m.s.gate, m.s.gate.inflightSeq, step.r);
    }
  }

  lemma StepStaysParked(m: Machine, step: Step)
    requires Enabled(m, step) && !Appends(step)
    ensures StaysParked(m.s.gate, After(m, step).s.gate)
  {
    match step
    case Abort(_) => AbortStaysParked(m.s);
    case Pop(_, calls) => HandledStaysParked(m.s.(events := m.s.events[1..]), m.s.events[0], calls);
    case Stream(_) => RequestStaysParked(m, step);
    case EndRequest(_) => RequestStaysParked(m, step);
    case _ => if step.Prompt? || step.SubmitPrompt? || step.Mark? || step.Steer? || step.SubmitSteer? ||
                 step.Evaluate? || step.SubmitNext? {
      ClientStaysParked(m, step);
    } else {
      OthersStayParked(m, step);
    }
  }

  lemma StepHushed(m: Machine, step: Step)
    requires Hushed(m.s) && Enabled(m, step) && NothingNew(m, [step])
    ensures Hushed(After(m, step).s) && After(m, step).s.gate.providerCalls == m.s.gate.providerCalls
  {
    match step
    case Persist => AppendHushed(m.s, Input(m.inbox[0], External));
    case AppendItem(item) => AppendHushed(m.s, item);
    case StartTurn(turnId, mutedId) => StartHushed(m, turnId, mutedId);
    case _ => QuietStepHushed(m, step);
  }

  lemma QuietStepHushed(m: Machine, step: Step)
    requires Hushed(m.s) && Enabled(m, step) && !Appends(step)
    ensures Hushed(After(m, step).s) && After(m, step).s.gate.providerCalls == m.s.gate.providerCalls
  {
    RecordsKept(m, step);
    StepStaysParked(m, step);
    QuietHushed(m.s, After(m, step).s);
  }

  lemma {:induction false} RunHushed(m: Machine, steps: seq<Step>)
    requires Hushed(m.s) && Run(m, steps) && NothingNew(m, steps)
    ensures Final(m, steps).s.gate.providerCalls == m.s.gate.providerCalls
    decreases |steps|
  {
    if steps != [] {
      StepHushed(m, steps[0]);
      RunHushed(After(m, steps[0]), steps[1..]);
    }
  }

  // ---- after a cancel ----

  lemma AbortHushes(s: Session)
    requires Known(s) && Abortable(s.turns)
    ensures Hushed(AbortMarks(s)) && AbortMarks(s).gate.providerCalls == s.gate.providerCalls
  {
    assert forall i | 0 <= i < |s.sync.reasons| && s.sync.reasons[i].CallReason? ::
        s.sync.reasons[i].call in s.sync.PendingCalls();
  }

  /** After an abort, covered or not, and even across later prompts, the first request that reaches
      the provider answers something the abort did not park. */
  lemma CancelAnswersNothingOld(log: seq<Item>, m: Machine, ids: seq<OpId>, steps: seq<Step>)
    requires SensibleLog(log) && Reaches(Opened(log), m) && Abortable(m.s.turns)
    requires Run(StartedAbort(m, ids), steps) && NothingNew(StartedAbort(m, ids), steps)
    ensures Final(StartedAbort(m, ids), steps).s.gate.providerCalls == m.s.gate.providerCalls
  {
    ReachedKnown(log, m);
    AbortHushes(m.s);
    RunHushed(StartedAbort(m, ids), steps);
  }

  // ---- after a restart ----

  /** The log leaves something the next request would answer, or a running call: Open parks. */
  predicate LeavesWork(log: seq<Item>) {
    Fold(log).reasons != [] || Fold(log).outstanding != map[]
  }

  /** Nothing to answer, nothing running, no request awaited, and an open gate that knows nothing
      as parked. */
  predicate Dormant(m: Machine) {
    && !m.s.gate.parked && m.s.gate.parkedCalls == {} && m.s.gate.parkedInputs == {} && !m.s.gate.inflight
    && m.s.sync.reasons == [] && m.s.sync.outstanding == map[] && !m.s.sync.inflight && !m.s.index.refuseNew
  }

  lemma DormantAppends(m: Machine, item: Item)
    requires Dormant(m) && !item.Turn? && (item.Input? ==> item.kind == OtherControl)
    requires item.ModelResponse? ==> CallIds(item.response.output) == {}
    ensures Dormant(Append(m, item)) && Append(m, item).s.gate == m.s.gate
  {
    if item.ModelResponse? {
      assert StartCalls(map[], item.response.output) == map[];
    }
  }

  lemma DormantAborts(m: Machine, ids: seq<OpId>)
    requires Dormant(m)
    ensures var y := StartedAbort(m, ids);
            (Dormant(y) || Hushed(y.s)) && y.s.gate.providerCalls == m.s.gate.providerCalls
  {
  }

  lemma DormantPops(m: Machine, ids: seq<OpId>, calls: seq<CallId>)
    requires Dormant(m) && m.s.events != []
    ensures Dormant(Popped(m, ids, calls)) && Popped(m, ids, calls).s.gate == m.s.gate
  {
  }

  lemma DormantRests(m: Machine, step: Step)
    requires Dormant(m) && Enabled(m, step)
    requires !Appends(step) && !step.Abort? && !step.Pop?
    ensures Dormant(After(m, step)) && After(m, step).s.gate.providerCalls == m.s.gate.providerCalls
  {
    RecordsKept(m, step);
    if step.Stream? {
      StreamKeepsMarks(m.s.gate, step.delta);
    } else if step.Prompt? || step.SubmitPrompt? || step.Mark? || step.Steer? || step.SubmitSteer? ||
              step.Evaluate? || step.SubmitNext? {
      ClientStaysParked(m, step);
      ClientRefusesNothing(m, step);
    } else {
      OthersStayParked(m, step);
    }
  }

  lemma ClientRefusesNothing(m: Machine, step: Step)
    requires step.Prompt? || step.SubmitPrompt? || step.Mark? || step.Steer? || step.SubmitSteer? ||
             step.Evaluate? || step.SubmitNext?
    requires !m.s.index.refuseNew
    ensures !After(m, step).s.index.refuseNew
  {
  }

  lemma StepDormant(m: Machine, step: Step)
    requires Dormant(m) && Enabled(m, step) && NothingNew(m, [step])
    ensures Dormant(After(m, step)) || Hushed(After(m, step).s)
    ensures After(m, step).s.gate.providerCalls == m.s.gate.providerCalls
  {
    match step
    case Persist =>
    case AppendItem(item) => DormantAppends(m, item);
    case StartTurn(_, _) =>
    case Abort(ids) => DormantAborts(m, ids);
    case Pop(ids, calls) => DormantPops(m, ids, calls);
    case _ => DormantRests(m, step);
  }

  lemma {:induction false} RunDormant(m: Machine, steps: seq<Step>)
    requires Dormant(m) && Run(m, steps) && NothingNew(m, steps)
    ensures Final(m, steps).s.gate.providerCalls == m.s.gate.providerCalls
    decreases |steps|
  {
    if steps != [] {
      StepDormant(m, steps[0]);
      if Dormant(After(m, steps[0])) {
        RunDormant(After(m, steps[0]), steps[1..]);
      } else {
        RunHushed(After(m, steps[0]), steps[1..]);
      }
    }
  }

  /** Reopening the log makes no request to the provider, prompts or not, until something new is
      recorded. */
  ghost predicate ReopensSilently(log: seq<Item>) {
    forall steps | Run(Opened(log), steps) && NothingNew(Opened(log), steps) ::
      Final(Opened(log), steps).s.gate.providerCalls == 0
  }

  lemma {:induction false} SeedRefusesNothing(log: seq<Item>)
    ensures !IndexAll(NO_INDEX, log).refuseNew
  {
    if log != [] {
      SeedRefusesNothing(log[..|log| - 1]);
    }
  }

  lemma ReopenedHushed(log: seq<Item>)
    requires SensibleLog(log) && LeavesWork(log)
    ensures Hushed(Opened(log).s)
  {
    OpenedKnown(log);
    var s := Opened(log).s;
    assert forall i | 0 <= i < |s.sync.reasons| && s.sync.reasons[i].CallReason? ::
        s.sync.reasons[i].call in s.sync.PendingCalls();
  }

  /** With nothing parked and the newest turn unanswered, the coordinator that the next prompt
      starts asks the model again for that turn, and the request goes through. */
  lemma UnansweredTurnIsAskedAgain(log: seq<Item>) returns (steps: seq<Step>)
    requires !LeavesWork(log) && Fold(log).inflight
    ensures Run(Opened(log), steps) && NothingNew(Opened(log), steps)
    ensures Final(Opened(log), steps).s.gate.providerCalls == 1
  {
    var m := Opened(log);
    var id := Unused(m.used);
    var turnId := Unused(m.issued);
    var m1 := After(m, Prompt(id));
    var m2 := After(m1, SubmitPrompt(id, true));
    var m3 := After(m2, StartTurn(turnId, 1));
    RunOne(m2, StartTurn(turnId, 1));
    RunFirst(m1, SubmitPrompt(id, true), [StartTurn(turnId, 1)]);
    RunFirst(m, Prompt(id), [SubmitPrompt(id, true)] + [StartTurn(turnId, 1)]);
    steps := [Prompt(id)] + ([SubmitPrompt(id, true)] + [StartTurn(turnId, 1)]);
    assert NothingNew(m3, []);
    assert steps[1..] == [SubmitPrompt(id, true)] + [StartTurn(turnId, 1)];
    assert steps[1..][1..] == [StartTurn(turnId, 1)] && steps[1..][1..][1..] == [];
    assert NothingNew(m2, [StartTurn(turnId, 1)]);
    assert NothingNew(m1, steps[1..]);
  }

  /** Exactly which restarts answer nothing old: those over a log that leaves work, which Open
      parks, and those over a log whose newest turn is answered. A process that ended while its
      request was in flight leaves neither: Open parks nothing, and the re-wake its comment means
      to prevent asks the provider. */
  lemma RestartAnswersNothingOldExactly(log: seq<Item>)
    requires SensibleLog(log)
    ensures ReopensSilently(log) <==> LeavesWork(log) || NewestAnswered(log)
  {
    InflightMeansUnanswered(log);
    if LeavesWork(log) {
      ReopenedHushed(log);
      forall steps | Run(Opened(log), steps) && NothingNew(Opened(log), steps)
        ensures Final(Opened(log), steps).s.gate.providerCalls == 0
      {
        RunHushed(Opened(log), steps);
      }
    } else if NewestAnswered(log) {
      SeedRefusesNothing(log);
      forall steps | Run(Opened(log), steps) && NothingNew(Opened(log), steps)
        ensures Final(Opened(log), steps).s.gate.providerCalls == 0
      {
        RunDormant(Opened(log), steps);
      }
    } else {
      var steps := UnansweredTurnIsAskedAgain(log);
    }
  }

  /** The shortest such log: an input and the turn that took it up. */
  lemma InterruptedRequestIsRepeated(id: InputId, turnId: TurnId)
    requires turnId != NO_ID
    ensures SensibleLog([Input(id, External), Turn(turnId)])
    ensures !ReopensSilently([Input(id, External), Turn(turnId)])
  {
    var first, log := [Input(id, External)], [Input(id, External), Turn(turnId)];
    assert log[..1] == first && first[..0] == [];
    assert Fold(first) == ApplyItem(FoldFrom(EMPTY, first[..0]), first[0]);
    assert Fold(log) == ApplyItem(Fold(first), Turn(turnId));
    assert SensibleLog([]) && SensibleLog(first);
    assert Fold(log).inflight && Fold(log).reasons == [] && Fold(log).outstanding == map[];
    var steps := UnansweredTurnIsAskedAgain(log);
  }
}
