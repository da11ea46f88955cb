/** A prompt starts afresh: what the cancel of an earlier turn refuses and parks is refused and parked
    until the next prompt, and no longer. */
module Prompts {
  import opened Harness
  import opened Mirrors
  import opened Gates
  import opened Ops
  import opened SessionSteps
  import opened SessionRuns
  import opened CancelSafety
  import opened CancelledWork
  import opened NormalEnd
  import opened LateCancels
  import Answers
  import Approvals

  /** The inputs the current turn waits for. */
  function Waits(ts: Turns): set<InputId> {
    if ts.Now().Some? then ts.Now().value.unobserved else {}
  }

  /** The calls the current turn, aborted, waits for. */
  function Pends(ts: Turns): set<CallId> {
    if ts.Now().Some? then ts.Now().value.waitCalls else {}
  }

  /** The newest turn was aborted. */
  predicate NewestAborted(ts: Turns) {
    ts.all != [] && ts.all[|ts.all| - 1].cancelling
  }

  /** The current turn is the newest, calls are refused exactly if that one was aborted, and without
      a refusal none is marked cancelled. */
  predicate Refusing(s: Session) {
    && (s.turns.current.Some? ==> s.turns.current.value == |s.turns.all| - 1)
    && (s.index.refuseNew <==> NewestAborted(s.turns))
    && (!s.index.refuseNew ==> s.index.cancelledCalls == {})
  }

  /** Only known calls and inputs are parked, wait for the model, or are waited for. */
  predicate Familiar(m: Machine) {
    && m.s.gate.parkedCalls <= m.s.index.calls && m.s.sync.PendingCalls() <= m.s.index.calls
    && m.s.gate.parkedInputs <= m.used && m.s.index.inputs <= m.used && Waits(m.s.turns) <= m.used
  }

  /** Nothing is aborted, refused or parked on the way from `s` to `t`; the turn may come to wait for
      `more`. */
  predicate Undisturbed(s: Session, t: Session, more: set<InputId>) {
    && |t.turns.all| == |s.turns.all|
    && (forall j | 0 <= j < |s.turns.all| :: t.turns.all[j].cancelling == s.turns.all[j].cancelling)
    && (t.turns.current == s.turns.current || t.turns.current.None?)
    && Waits(t.turns) <= Waits(s.turns) + more && Pends(t.turns) <= Pends(s.turns)
    && t.index.refuseNew == s.index.refuseNew && t.index.cancelledCalls == s.index.cancelledCalls
    && t.gate.parkedCalls == s.gate.parkedCalls && t.gate.parkedInputs == s.gate.parkedInputs
  }

  // ---- steps that disturb nothing ----

  lemma ErrorUndisturbed(s: Session, code: nat)
    requires !ErrorAborts(s)
    ensures Undisturbed(s, HandledError(s, code), {})
  {
  }

  lemma ExitUndisturbed(s: Session, gen: nat, failed: Option<nat>)
    ensures Undisturbed(s, HandledExit(s, gen, failed), {})
  {
  }

  lemma EventUndisturbed(s: Session, ev: Event, calls: seq<CallId>)
    requires !(ev.EvModelError? && ErrorAborts(s))
    ensures Undisturbed(s, Handled(s, ev, calls), {})
  {
    match ev
    case EvModelError(code) => ErrorUndisturbed(s, code);
    case EvRunExit(gen, failed) => ExitUndisturbed(s, gen, failed);
    case _ =>
  }

  lemma EvaluateUndisturbed(s: Session)
    ensures Undisturbed(s, Evaluated(s).0, {})
  {
  }

  lemma SteerUndisturbed(m: Machine, id: InputId, interrupt: bool)
    ensures Undisturbed(m.s, TakeSteer(m, id, interrupt).s, {id})
  {
  }

  lemma SubmitUndisturbed(m: Machine, id: InputId, ok: bool)
    ensures Undisturbed(m.s, SubmittedPrompt(m, id, ok).s, {})
  {
    Answers.SubmitTurns(m, id, ok);
  }

  lemma RequestUndisturbed(m: Machine, step: Step)
    requires step.Stream? || step.EndRequest?
    ensures Undisturbed(m.s, After(m, step).s, {})
  {
    if step.EndRequest? {
      EndForgets(m.s.gate, m.s.gate.inflightSeq, step.r);
    } else {
      StreamKeepsMarks(m.s.gate, step.delta);
    }
  }

  lemma ClientKeepsMarks(m: Machine, step: Step)
    requires step.SubmitSteer? || step.SubmitNext? || step.Permit? || step.Fire? || step.Exit?
    ensures After(m, step).s.gate == m.s.gate && After(m, step).s.index == m.s.index
  {
  }

  lemma ManagerKeepsMarks(m: Machine, step: Step)
    requires step.AddOp? || step.DoAction? || step.PumpOp? || step.Deliver? || step.CancelNext? || step.EndAbort?
    ensures After(m, step).s.gate == m.s.gate && After(m, step).s.index == m.s.index
  {
  }

  lemma MarkUndisturbed(s: Session)
    ensures Undisturbed(s, MarkCancelled(s), {})
  {
  }

  /** The step aborts the current turn. */
  predicate Disturbs(m: Machine, step: Step) {
    (step.Abort? && Abortable(m.s.turns)) ||
    (step.Pop? && m.s.events != [] && m.s.events[0].EvModelError? && ErrorAborts(m.s))
  }

  lemma StepUndisturbed(m: Machine, step: Step)
    requires Enabled(m, step) && !Appends(step) && !step.Prompt? && !Disturbs(m, step)
    ensures Undisturbed(m.s, After(m, step).s, if step.Steer? then {step.id} else {})
  {
    match step
    case Pop(_, calls) => EventUndisturbed(m.s.(events := m.s.events[1..]), m.s.events[0], calls);
    case Evaluate => EvaluateUndisturbed(m.s);
    case Steer(id, interrupt) => SteerUndisturbed(m, id, interrupt);
    case SubmitPrompt(id, ok) => SubmitUndisturbed(m, id, ok);
    case Abort(_) =>
    case Mark => MarkUndisturbed(m.s);
    case _ => if step.Stream? || step.EndRequest? {
      RequestUndisturbed(m, step);
    } else {
      Answers.TurnsKept(m, step);
      if step.SubmitSteer? || step.SubmitNext? || step.Permit? || step.Fire? || step.Exit? {
        ClientKeepsMarks(m, step);
      } else {
        ManagerKeepsMarks(m, step);
      }
    }
  }

  // ---- the accounts of every run ----

  lemma UndisturbedRefusing(s: Session, t: Session, more: set<InputId>)
    requires Refusing(s) && Undisturbed(s, t, more)
    ensures Refusing(t)
  {
  }

  lemma AbortRefusing(s: Session)
    requires Refusing(s)
    ensures Refusing(AbortMarks(s))
  {
  }

  lemma ErrorRefusing(s: Session, code: nat)
    requires Refusing(s)
    ensures Refusing(HandledError(s, code))
  {
    assert Refusing(Noted(s, code));
    AbortRefusing(Noted(s, code));
  }

  lemma PromptRefusing(s: Session, id: InputId)
    requires Refusing(s)
    ensures Refusing(Prompted(s, id).0)
  {
  }

  lemma AppendRefusing(m: Machine, step: Step)
    requires Refusing(m.s) && Appends(step)
    ensures Refusing(After(m, step).s)
  {
    Answers.TurnsKept(m, step);
  }

  lemma StepRefusing(m: Machine, step: Step)
    requires Refusing(m.s) && Enabled(m, step)
    ensures Refusing(After(m, step).s)
  {
    if Appends(step) {
      AppendRefusing(m, step);
    } else if step.Prompt? {
      PromptRefusing(m.s, step.id);
    } else if step.Abort? {
      AbortRefusing(m.s);
    } else if Disturbs(m, step) {
      ErrorRefusing(m.s.(events := m.s.events[1..]), m.s.events[0].code);
    } else {
      StepUndisturbed(m, step);
      UndisturbedRefusing(m.s, After(m, step).s, if step.Steer? then {step.id} else {});
    }
  }

  lemma AbortFamiliar(m: Machine)
    requires Familiar(m)
    ensures var y := AbortMarks(m.s);
            && y.gate.parkedCalls <= m.s.index.calls && y.gate.parkedInputs <= m.used
            && Waits(y.turns) <= Waits(m.s.turns)
            && y.sync == m.s.sync && y.index.calls == m.s.index.calls && y.index.inputs == m.s.index.inputs
  {
  }

  lemma ErrorFamiliar(m: Machine, code: nat)
    requires Familiar(m)
    ensures var y := HandledError(m.s, code);
            && y.gate.parkedCalls <= m.s.index.calls && y.gate.parkedInputs <= m.used
            && Waits(y.turns) <= Waits(m.s.turns)
  {
    var m1 := m.(s := Noted(m.s, code));
    assert Waits(m1.s.turns) == Waits(m.s.turns);
    AbortFamiliar(m1);
  }

  lemma PromptFamiliar(m: Machine, id: InputId)
    requires Familiar(m)
    ensures Familiar(TakePrompt(m, id))
  {
  }

  lemma PendingKnown(m: MirrorState, ix: Index, item: Item)
    requires m.PendingCalls() <= ix.calls && Sensible(ix, item)
    ensures ApplyItem(m, item).PendingCalls() <= ix.Add(item).calls
  {
    var y := ApplyItem(m, item);
    forall c | c in y.PendingCalls()
      ensures c in ix.Add(item).calls
    {
      if c !in y.outstanding {
        var i :| 0 <= i < |y.reasons| && y.reasons[i] == CallReason(c);
        if i < |m.reasons| && y.reasons[i] == m.reasons[i] {
          assert c in m.PendingCalls();
        } else {
          assert item.CallStatus? && c == item.status.callId;
        }
      } else if c in m.outstanding {
        assert c in m.PendingCalls();
      }
    }
  }

  lemma AppendFamiliar(m: Machine, item: Item)
    requires Familiar(m) && Sensible(m.s.index, item) && (item.Input? && item.kind == External ==> item.id in m.used)
    ensures Familiar(Append(m, item))
  {
    PendingKnown(m.s.sync, m.s.index, item);
  }

  lemma StartFamiliar(m: Machine, turnId: TurnId, mutedId: ResponseId)
    requires Familiar(m)
    ensures Familiar(Started(m, turnId, mutedId))
  {
    AppendFamiliar(m, Turn(turnId));
  }

  lemma AppendStepFamiliar(m: Machine, step: Step)
    requires Familiar(m) && Enabled(m, step) && Appends(step) && forall id | id in m.inbox :: id in m.used
    ensures Familiar(After(m, step))
  {
    match step
    case Persist => AppendFamiliar(m.(inbox := m.inbox[1..]), Input(m.inbox[0], External));
    case AppendItem(item) =>
      var m1 := m.(used := if item.Input? then m.used + {item.id} else m.used);
      AppendFamiliar(m1, item);
    case StartTurn(turnId, mutedId) => StartFamiliar(m, turnId, mutedId);
  }

  lemma UsedGrows(m: Machine, step: Step)
    ensures m.used <= After(m, step).used && (step.Steer? ==> step.id in After(m, step).used)
  {
  }

  lemma QuietFamiliar(m: Machine, step: Step)
    requires Familiar(m) && Enabled(m, step) && !Appends(step) && !step.Prompt? && !Disturbs(m, step)
    ensures Familiar(After(m, step))
  {
    StepUndisturbed(m, step);
    RecordsKept(m, step);
    UsedGrows(m, step);
  }

  lemma DisturbedFamiliar(m: Machine, step: Step)
    requires Familiar(m) && Enabled(m, step) && Disturbs(m, step)
    ensures Familiar(After(m, step))
  {
    RecordsKept(m, step);
    UsedGrows(m, step);
    if step.Abort? {
      AbortFamiliar(m);
    } else {
      ErrorFamiliar(m.(s := m.s.(events := m.s.events[1..])), m.s.events[0].code);
    }
  }

  lemma StepFamiliar(m: Machine, step: Step)
    requires Familiar(m) && Enabled(m, step) && forall id | id in m.inbox :: id in m.used
    ensures Familiar(After(m, step))
  {
    if Appends(step) {
      AppendStepFamiliar(m, step);
    } else if step.Prompt? {
      PromptFamiliar(m, step.id);
    } else if Disturbs(m, step) {
      DisturbedFamiliar(m, step);
    } else {
      QuietFamiliar(m, step);
    }
  }

  lemma InboxIsUsed(m: Machine)
    requires Books(m)
    ensures forall id | id in m.inbox :: id in m.used
  {
    forall id | id in m.inbox
      ensures id in m.used
    {
      assert Tally(m, id) >= multiset(m.submitted)[id] > 0;
    }
  }

  /** What every run keeps. */
  ghost predicate Accounts(m: Machine) {
    Refusing(m.s) && Familiar(m) && Books(m) && Answers.Disciplined(m.s.turns) && AllFair(m.s.turns)
  }

  lemma {:induction false} RunAccounts(m: Machine, steps: seq<Step>)
    requires Accounts(m) && Run(m, steps)
    ensures Accounts(Final(m, steps))
    decreases |steps|
  {
    if steps != [] {
      StepAccounts(m, steps[0]);
      RunAccounts(After(m, steps[0]), steps[1..]);
    }
  }

  lemma StepAccounts(m: Machine, step: Step)
    requires Accounts(m) && Enabled(m, step)
    ensures Accounts(After(m, step))
  {
    StepRefusing(m, step);
    InboxIsUsed(m);
    StepFamiliar(m, step);
    StepBooks(m, step);
    RunOne(m, step);
    RunGoes(m, [step]);
  }

  lemma {:induction false} OpenedPending(log: seq<Item>)
    requires SensibleLog(log)
    ensures Fold(log).PendingCalls() <= IndexAll(NO_INDEX, log).calls && !IndexAll(NO_INDEX, log).refuseNew
    ensures IndexAll(NO_INDEX, log).cancelledCalls == {}
  {
    if log != [] {
      OpenedPending(log[..|log| - 1]);
      PendingKnown(Fold(log[..|log| - 1]), IndexAll(NO_INDEX, log[..|log| - 1]), log[|log| - 1]);
    }
  }

  lemma ReachedAccounts(log: seq<Item>, m: Machine)
    requires SensibleLog(log) && Reaches(Opened(log), m)
    ensures Accounts(m)
  {
    OpenedPending(log);
    OpenedBooks(log);
    assert Accounts(Opened(log));
    var steps :| Run(Opened(log), steps) && m == Final(Opened(log), steps);
    RunAccounts(Opened(log), steps);
  }

  // ---- until the next abort ----

  /** The newest turn of `m` is the newest of `z` still, and was not aborted. */
  predicate Spares(m: Machine, z: Machine) {
    |z.s.turns.all| == |m.s.turns.all| && !NewestAborted(z.s.turns)
  }

  /** Nothing is refused, and no more is parked than was. */
  predicate Relaxed(m: Machine, z: Machine) {
    && !z.s.index.refuseNew && z.s.index.cancelledCalls == {}
    && z.s.gate.parkedCalls <= m.s.gate.parkedCalls && z.s.gate.parkedInputs <= m.s.gate.parkedInputs
  }

  lemma StepRelaxes(m: Machine, step: Step)
    requires Accounts(m) && Enabled(m, step) && Spares(m, m) && Spares(m, After(m, step))
    ensures Relaxed(m, After(m, step))
  {
    StepRefusing(m, step);
    if Appends(step) {
      AppendRelaxes(m, step);
    } else {
      OthersRelax(m, step);
    }
  }

  lemma OthersRelax(m: Machine, step: Step)
    requires Accounts(m) && Enabled(m, step) && !Appends(step) && Spares(m, m) && Spares(m, After(m, step))
    ensures var g := After(m, step).s.gate;
            g.parkedCalls <= m.s.gate.parkedCalls && g.parkedInputs <= m.s.gate.parkedInputs
  {
    if !step.Prompt? {
      assert !Disturbs(m, step) by {
        if Disturbs(m, step) {
          DisturbsAborts(m, step);
        }
      }
      StepUndisturbed(m, step);
    }
  }

  lemma DisturbsAborts(m: Machine, step: Step)
    requires Refusing(m.s) && Disturbs(m, step)
    ensures NewestAborted(After(m, step).s.turns)
  {
  }

  lemma AppendRelaxes(m: Machine, step: Step)
    requires Appends(step) && !m.s.index.refuseNew
    ensures var g := After(m, step).s.gate;
            g.parkedCalls <= m.s.gate.parkedCalls && g.parkedInputs <= m.s.gate.parkedInputs
  {
  }

  lemma {:induction false} RunRelaxes(m: Machine, steps: seq<Step>)
    requires Accounts(m) && Run(m, steps) && Spares(m, m) && Spares(m, Final(m, steps))
    ensures Relaxed(m, Final(m, steps))
    ensures forall c | Requested(steps, c) :: c !in Final(m, steps).s.gate.parkedCalls
    decreases |steps|
  {
    if steps != [] {
      var y := After(m, steps[0]);
      StepAccounts(m, steps[0]);
      SparesBetween(m, steps);
      StepRelaxes(m, steps[0]);
      RunRelaxes(y, steps[1..]);
      forall c | Requested(steps, c)
        ensures c !in Final(m, steps).s.gate.parkedCalls
      {
        LaterRequested(steps, c);
        if !Requested(steps[1..], c) {
          assert c !in m.s.index.calls;
        }
      }
    }
  }

  lemma SparesBetween(m: Machine, steps: seq<Step>)
    requires Accounts(m) && Run(m, steps) && steps != [] && Spares(m, m) && Spares(m, Final(m, steps))
    ensures Spares(m, After(m, steps[0])) && Spares(After(m, steps[0]), Final(After(m, steps[0]), steps[1..]))
  {
    var y := After(m, steps[0]);
    StepAccounts(m, steps[0]);
    RunOne(m, steps[0]);
    RunGoes(m, [steps[0]]);
    RunGoes(y, steps[1..]);
  }

  lemma LaterRequested(steps: seq<Step>, c: CallId)
    requires steps != [] && Requested(steps, c)
    ensures Requested(steps[1..], c) ||
            (steps[0].AppendItem? && steps[0].item.ModelResponse? && c in CallIds(steps[0].item.response.output))
  {
    var i :| 0 <= i < |steps| && steps[i].AppendItem? && steps[i].item.ModelResponse? &&
             c in CallIds(steps[i].item.response.output);
    if i > 0 {
      assert steps[1..][i - 1] == steps[i];
    }
  }

  /** A prompt ends the refusals of the cancel before it: in every run from a new prompt, as long as
      its turn is the newest and was not aborted, no call is refused and none of the calls it asks
      for is parked, nor is the prompt itself; so a new operation of any call is judged by the
      policy alone, and one that needs no approval is on its way to the inner manager. */
  lemma PromptStartsAfresh(log: seq<Item>, m: Machine, id: InputId, steps: seq<Step>, op: Operation,
                           mode: PermissionMode)
    requires SensibleLog(log) && Reaches(Opened(log), m) && Enabled(m, Prompt(id)) && id !in m.s.index.inputs
    requires Run(TakePrompt(m, id), steps) && Spares(TakePrompt(m, id), Final(TakePrompt(m, id), steps))
    ensures var z := Final(TakePrompt(m, id), steps);
            && !z.s.index.refuseNew && z.s.index.cancelledCalls == {} && id !in z.s.gate.parkedInputs
            && (forall c | Requested(steps, c) :: c !in z.s.gate.parkedCalls)
            && (op.id !in z.s.ops.held && op.id !in z.s.ops.latest && (!op.shell || mode == Auto) ==>
                  Claimed(After(z, AddOp(op, mode)), op.id))
  {
    ReachedAccounts(log, m);
    var m1, z := TakePrompt(m, id), Final(TakePrompt(m, id), steps);
    StepAccounts(m, Prompt(id));
    assert id !in m.used && id !in m1.s.gate.parkedInputs;
    RunRelaxes(m1, steps);
    if op.id !in z.s.ops.held && op.id !in z.s.ops.latest && (!op.shell || mode == Auto) {
      Approvals.NewOperationsAreJudged(z, op, mode);
      var todo := After(z, AddOp(op, mode)).todo;
      assert Forwards(todo[|z.todo|], op.id);
    }
  }

  /** And the model hears of it: the next request with the prompt, or with a result of one of its
      calls, goes to the provider. */
  lemma PromptReachesTheModel(log: seq<Item>, m: Machine, id: InputId, steps: seq<Step>, turnId: TurnId,
                              mutedId: ResponseId, reason: Reason)
    requires SensibleLog(log) && Reaches(Opened(log), m) && Enabled(m, Prompt(id)) && id !in m.s.index.inputs
    requires Run(TakePrompt(m, id), steps) && Spares(TakePrompt(m, id), Final(TakePrompt(m, id), steps))
    requires reason == InputReason(id) || (reason.CallReason? && Requested(steps, reason.call))
    requires reason in Final(TakePrompt(m, id), steps).s.sync.reasons
    ensures var z := Final(TakePrompt(m, id), steps);
            After(z, StartTurn(turnId, mutedId)).s.gate.providerCalls == z.s.gate.providerCalls + 1
  {
    PromptStartsAfresh(log, m, id, steps, Operation(0, false, false, Ready, ""), Auto);
    UnparkedIsAsked(Final(TakePrompt(m, id), steps), turnId, mutedId, reason);
  }

  lemma UnparkedIsAsked(m: Machine, turnId: TurnId, mutedId: ResponseId, reason: Reason)
    requires reason in m.s.sync.reasons && !ParkedReason(m.s.gate, reason)
    ensures Started(m, turnId, mutedId).s.gate.providerCalls == m.s.gate.providerCalls + 1
  {
    var i :| 0 <= i < |m.s.sync.reasons| && m.s.sync.reasons[i] == reason;
    assert !ParkedReason(m.s.gate, m.s.sync.reasons[i]);
    assert Append(m, Turn(turnId)).s.gate == m.s.gate && !AllParked(m.s.gate, m.s.sync.reasons);
  }

  // ---- which prompts start a turn ----

  /** The inputs on record are those of the log. */
  ghost predicate Recorded(log: seq<Item>, ix: Index) {
    forall id :: id in ix.inputs <==> Input(id, External) in log
  }

  lemma AddRecords(log: seq<Item>, ix: Index, item: Item)
    requires Recorded(log, ix)
    ensures Recorded(log + [item], ix.Add(item))
  {
    assert forall id :: Input(id, External) in log + [item] <==>
        Input(id, External) in log || item == Input(id, External);
  }

  lemma {:induction false} OpenedRecords(log: seq<Item>)
    ensures Recorded(log, IndexAll(NO_INDEX, log))
  {
    if log != [] {
      OpenedRecords(log[..|log| - 1]);
      AddRecords(log[..|log| - 1], IndexAll(NO_INDEX, log[..|log| - 1]), log[|log| - 1]);
      assert log == log[..|log| - 1] + [log[|log| - 1]];
    }
  }

  lemma StepRecords(m: Machine, step: Step)
    requires Recorded(m.log, m.s.index) && Enabled(m, step)
    ensures Recorded(After(m, step).log, After(m, step).s.index)
  {
    if Appends(step) {
      var y := After(m, step);
      assert |y.log| == |m.log| + 1;
      var item := y.log[|m.log|];
      assert y.log == m.log + [item] && y.s.index == m.s.index.Add(item);
      AddRecords(m.log, m.s.index, item);
    } else {
      RecordsKept(m, step);
    }
  }

  lemma {:induction false} RunRecords(m: Machine, steps: seq<Step>)
    requires Recorded(m.log, m.s.index) && Run(m, steps)
    ensures Recorded(Final(m, steps).log, Final(m, steps).s.index)
    decreases |steps|
  {
    if steps != [] {
      StepRecords(m, steps[0]);
      RunRecords(After(m, steps[0]), steps[1..]);
    }
  }

  /** A prompt starts a turn of its own, in every run, exactly if the log does not have it yet; a
      redelivered one is acknowledged and changes nothing. */
  lemma RedeliveryIsAcknowledged(log: seq<Item>, m: Machine, id: InputId)
    requires Reaches(Opened(log), m) && Enabled(m, Prompt(id))
    ensures var y := After(m, Prompt(id));
            if Input(id, External) in m.log then y == m
            else
              && |y.s.turns.all| == |m.s.turns.all| + 1 && y.s.turns.current == Some(|m.s.turns.all|)
              && Abortable(y.s.turns) && Waits(y.s.turns) == {id} && y.s.turns.answers == m.s.turns.answers
              && Enabled(y, SubmitPrompt(id, true))
  {
    OpenedRecords(log);
    var steps :| Run(Opened(log), steps) && m == Final(Opened(log), steps);
    RunRecords(Opened(log), steps);
  }
}
