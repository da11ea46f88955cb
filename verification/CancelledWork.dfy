/** Tool operations of cancelled calls do not start, but for those an approval can still let
    through; and an abort reaches every operation it set out to cancel. */
module CancelledWork {
  import opened Harness
  import opened Mirrors
  import opened Gates
  import opened Ops
  import opened SessionSteps
  import opened SessionRuns
  import opened CancelSafety

  predicate Forwards(a: Action, op: OpId) {
    a.Forwarding? && a.op.id == op
  }

  /** The decision to give `op` to the inner manager was made; the call is still to come. */
  predicate Decided(m: Machine, op: OpId) {
    exists a | a in m.todo :: Forwards(a, op)
  }

  /** Operation `op` was given to the inner manager, or the decision to give it was made. */
  predicate Claimed(m: Machine, op: OpId) {
    op in m.s.ops.inner || Decided(m, op)
  }

  /** Every operation belongs to a known call, and held operations are filed under their id. */
  predicate Filed(s: Session) {
    && (forall op | op in s.index.opCall :: s.index.opCall[op] in s.index.calls)
    && NO_ID !in s.index.calls
    && (forall op | op in s.ops.held :: s.ops.held[op].id == op && op in s.index.opCall)
  }

  // ---- operations stay filed ----

  lemma AppendFiled(s: Session, item: Item)
    requires Filed(s) && Sensible(s.index, item)
    ensures Filed(Observed(s, item))
  {
  }

  predicate Elsewhere(step: Step) {
    step.Prompt? || step.SubmitPrompt? || step.Mark? || step.Steer? || step.SubmitSteer? || step.Evaluate? ||
    step.SubmitNext? || step.Fire? || step.Stream? || step.EndRequest? || step.Exit? || step.Abort? || step.EndAbort?
  }

  lemma ClientKeepsOps(m: Machine, step: Step)
    requires step.Prompt? || step.Mark? || step.Steer? || step.SubmitPrompt?
    ensures After(m, step).s.ops == m.s.ops && After(m, step).todo == m.todo
  {
  }

  lemma SubmissionKeepsOps(m: Machine, step: Step)
    requires step.SubmitSteer? || step.SubmitNext? || step.Abort? || step.EndAbort?
    ensures After(m, step).s.ops == m.s.ops && After(m, step).todo == m.todo
  {
  }

  lemma ElsewhereKeepsOps(m: Machine, step: Step)
    requires Elsewhere(step)
    ensures After(m, step).s.ops == m.s.ops && After(m, step).todo == m.todo
  {
    if step.Prompt? || step.Mark? || step.Steer? || step.SubmitPrompt? {
      ClientKeepsOps(m, step);
    } else if step.SubmitSteer? || step.SubmitNext? || step.Abort? || step.EndAbort? {
      SubmissionKeepsOps(m, step);
    }
  }

  lemma PopKeepsOps(m: Machine, ids: seq<OpId>, calls: seq<CallId>)
    ensures var y := Popped(m, ids, calls); y.s.ops == m.s.ops && y.todo == m.todo
    ensures m.s.events != [] ==> Popped(m, ids, calls).s.index.opCall == m.s.index.opCall
    ensures m.s.events != [] ==> Popped(m, ids, calls).s.index.calls == m.s.index.calls
  {
    if m.s.events != [] {
      HandledKeepsRecords(m.s.(events := m.s.events[1..]), m.s.events[0], calls);
    }
  }

  lemma PermitFiled(m: Machine, op: OpId, allow: bool, always: bool)
    requires Filed(m.s)
    ensures Filed(Permitted(m, op, allow, always).s)
  {
  }

  lemma AddFiled(m: Machine, op: Operation, mode: PermissionMode)
    requires Filed(m.s) && op.id in m.s.index.opCall
    ensures Filed(Added(m, op, mode).s)
  {
  }

  lemma ManagerFiled(m: Machine, step: Step)
    requires Filed(m.s) && Enabled(m, step)
    requires step.DoAction? || step.PumpOp? || step.Deliver? || step.CancelNext?
    ensures Filed(After(m, step).s)
  {
  }

  lemma StepFiled(m: Machine, step: Step)
    requires Filed(m.s) && Enabled(m, step)
    ensures Filed(After(m, step).s)
  {
    match step
    case Persist => AppendFiled(m.s, Input(m.inbox[0], External));
    case AppendItem(item) => AppendFiled(m.s, item);
    case StartTurn(turnId, _) => AppendFiled(m.s, Turn(turnId));
    case Pop(ids, calls) => PopKeepsOps(m, ids, calls);
    case Permit(op, allow, always) => PermitFiled(m, op, allow, always);
    case AddOp(op, mode) => AddFiled(m, op, mode);
    case _ => if Elsewhere(step) {
      ElsewhereFiled(m, step);
    } else {
      ManagerFiled(m, step);
    }
  }

  lemma ElsewhereFiled(m: Machine, step: Step)
    requires Filed(m.s) && Elsewhere(step)
    ensures Filed(After(m, step).s)
  {
    ElsewhereKeepsOps(m, step);
    RecordsKept(m, step);
  }

  lemma {:induction false} RunFiled(m: Machine, steps: seq<Step>)
    requires Filed(m.s) && Run(m, steps)
    ensures Filed(Final(m, steps).s)
    decreases |steps|
  {
    if steps != [] {
      StepFiled(m, steps[0]);
      RunFiled(After(m, steps[0]), steps[1..]);
    }
  }

  lemma {:induction false} OpenedFiled(log: seq<Item>)
    requires SensibleLog(log)
    ensures Filed(Opened(log).s)
  {
    if log != [] {
      OpenedFiled(log[..|log| - 1]);
    }
  }

  lemma ReachedFiled(log: seq<Item>, m: Machine)
    requires SensibleLog(log) && Reaches(Opened(log), m)
    ensures Filed(m.s)
  {
    OpenedFiled(log);
    var steps :| Run(Opened(log), steps) && m == Final(Opened(log), steps);
    RunFiled(Opened(log), steps);
  }

  // ---- the refusal lasts ----

  /** The runtime refuses new calls and has no turn left to abort: from an abort to the next
      prompt. */
  predicate Shut(m: Machine) {
    m.s.index.refuseNew && !Abortable(m.s.turns)
  }

  lemma ClientStaysShut(m: Machine, step: Step)
    requires step.Mark? || step.Steer? || step.SubmitSteer? || step.SubmitNext? || step.Evaluate? || step.Abort?
    requires Shut(m)
    ensures Shut(After(m, step)) && After(m, step).s.index == m.s.index
  {
  }

  lemma SubmitStaysShut(m: Machine, id: InputId, ok: bool)
    requires Shut(m)
    ensures Shut(SubmittedPrompt(m, id, ok)) && SubmittedPrompt(m, id, ok).s.index == m.s.index
  {
  }

  lemma PopStaysShut(m: Machine, ids: seq<OpId>, calls: seq<CallId>)
    requires Shut(m) && m.s.events != []
    ensures Shut(Popped(m, ids, calls)) && Popped(m, ids, calls).s.index == m.s.index
  {
    HandledKeepsGate(m.s.(events := m.s.events[1..]), m.s.events[0], calls);
  }

  lemma AppendStaysShut(m: Machine, step: Step)
    requires Shut(m) && Appends(step)
    ensures Shut(After(m, step)) && m.s.index.cancelledCalls <= After(m, step).s.index.cancelledCalls
    ensures step.AppendItem? && step.item.ModelResponse? ==>
              CallIds(step.item.response.output) <= After(m, step).s.index.cancelledCalls
  {
  }

  lemma OthersStayShut(m: Machine, step: Step)
    requires step.Permit? || step.Fire? || step.Stream? || step.EndRequest? || step.Exit? || step.AddOp? ||
             step.DoAction? || step.PumpOp? || step.Deliver? || step.CancelNext? || step.EndAbort?
    requires Shut(m)
    ensures Shut(After(m, step)) && After(m, step).s.index == m.s.index
  {
  }

  lemma StepStaysShut(m: Machine, step: Step)
    requires Shut(m) && Enabled(m, step) && !step.Prompt?
    ensures Shut(After(m, step)) && m.s.index.cancelledCalls <= After(m, step).s.index.cancelledCalls
    ensures step.AppendItem? && step.item.ModelResponse? ==>
              CallIds(step.item.response.output) <= After(m, step).s.index.cancelledCalls
  {
    match step
    case SubmitPrompt(id, ok) => SubmitStaysShut(m, id, ok);
    case Pop(ids, calls) => PopStaysShut(m, ids, calls);
    case _ => if Appends(step) {
      AppendStaysShut(m, step);
    } else if step.Mark? || step.Steer? || step.SubmitSteer? || step.SubmitNext? || step.Evaluate? || step.Abort? {
      ClientStaysShut(m, step);
    } else {
      OthersStayShut(m, step);
    }
  }

  /** Some response appended during the run asked for call `c`. */
  predicate Requested(steps: seq<Step>, c: CallId) {
    exists i | 0 <= i < |steps| :: steps[i].AppendItem? && steps[i].item.ModelResponse? &&
                                   c in CallIds(steps[i].item.response.output)
  }

  /** Calls cancelled at the abort, and calls responses ask for after it, are all refused. */
  lemma {:induction false} RunCancels(m: Machine, steps: seq<Step>, c: CallId)
    requires Shut(m) && Run(m, steps) && NoPrompt(steps)
    ensures Shut(Final(m, steps))
    ensures c in m.s.index.cancelledCalls || Requested(steps, c) ==> c in Final(m, steps).s.index.cancelledCalls
    decreases |steps|
  {
    if steps != [] {
      StepStaysShut(m, steps[0]);
      RunCancels(After(m, steps[0]), steps[1..], c);
      if i :| 0 <= i < |steps| && steps[i].AppendItem? && steps[i].item.ModelResponse? &&
              c in CallIds(steps[i].item.response.output) {
        assert i > 0 ==> steps[1..][i - 1] == steps[i];
      }
    }
  }

  // ---- an unclaimed operation of a cancelled call stays unclaimed ----

  /** If `op` is claimed, or may still be, its call is not cancelled. */
  ghost predicate Spared(m: Machine, op: OpId) {
    && Shut(m) && Filed(m.s)
    && (Claimed(m, op) || op in m.s.ops.held ==>
          op in m.s.index.opCall && m.s.index.opCall[op] !in m.s.index.cancelledCalls)
  }

  /** `op` is never added as one that is already under way. */
  predicate ReadyAdds(steps: seq<Step>, op: OpId) {
    forall i | 0 <= i < |steps| && steps[i].AddOp? && steps[i].op.id == op :: steps[i].op.status == Ready
  }

  lemma AppendSpared(m: Machine, item: Item, op: OpId)
    requires Spared(m, op) && Sensible(m.s.index, item)
    ensures Spared(Append(m, item), op)
  {
    AppendFiled(m.s, item);
    var y := Append(m, item);
    assert op in m.s.index.opCall ==> op in y.s.index.opCall && y.s.index.opCall[op] == m.s.index.opCall[op];
    assert Claimed(y, op) == Claimed(m, op);
  }

  lemma PersistSpared(m: Machine, op: OpId)
    requires Spared(m, op) && m.inbox != []
    ensures Spared(After(m, Persist), op)
  {
    var m1 := m.(inbox := m.inbox[1..]);
    assert Claimed(m1, op) == Claimed(m, op);
    AppendSpared(m1, Input(m.inbox[0], External), op);
  }

  lemma StartSpared(m: Machine, turnId: TurnId, mutedId: ResponseId, op: OpId)
    requires Spared(m, op)
    ensures Spared(Started(m, turnId, mutedId), op)
  {
    AppendSpared(m, Turn(turnId), op);
    assert Claimed(Started(m, turnId, mutedId), op) == Claimed(Append(m, Turn(turnId)), op);
  }

  lemma AddSpared(m: Machine, added: Operation, mode: PermissionMode, op: OpId)
    requires Spared(m, op) && added.id in m.s.index.opCall && (added.id == op ==> added.status == Ready)
    ensures Spared(Added(m, added, mode), op)
  {
    AddFiled(m, added, mode);
    var y := Added(m, added, mode);
    if Claimed(y, op) && !Claimed(m, op) {
      var a :| a in y.todo && Forwards(a, op);
      assert a in m.todo || a == AddLocked(m.s.ops, added, Policy(m.s, mode, added), "not allowed", true).1;
    }
  }

  lemma PermitSpared(m: Machine, step: Step, op: OpId)
    requires Spared(m, op) && step.Permit?
    ensures Spared(After(m, step), op)
  {
    PermitFiled(m, step.held, step.allow, step.always);
    var y := After(m, step);
    if Claimed(y, op) && !Claimed(m, op) {
      var a :| a in y.todo && Forwards(a, op);
      assert a in m.todo || a == DecideLocked(m.s.ops, step.held, step.allow, "rejected").1;
    }
  }

  lemma DoSpared(m: Machine, step: Step, op: OpId)
    requires Spared(m, op) && Enabled(m, step) && step.DoAction?
    ensures Spared(After(m, step), op)
  {
    ManagerFiled(m, step);
    var y := After(m, step);
    assert m.todo[step.i] in m.todo;
    if Claimed(y, op) {
      if op !in y.s.ops.inner {
        var a :| a in y.todo && Forwards(a, op);
        assert a in m.todo;
      } else if op !in m.s.ops.inner {
        assert Forwards(m.todo[step.i], op);
      }
      assert Claimed(m, op);
    }
  }

  lemma CancelSpared(m: Machine, i: nat, op: OpId)
    requires Spared(m, op) && Enabled(m, CancelNext(i))
    ensures Spared(CancelledNext(m, i), op)
  {
    ManagerFiled(m, CancelNext(i));
    assert Claimed(CancelledNext(m, i), op) == Claimed(m, op);
  }

  lemma RestSpared(m: Machine, step: Step, op: OpId)
    requires Spared(m, op) && Enabled(m, step) && (Elsewhere(step) || step.Pop? || step.PumpOp? || step.Deliver?)
    requires !step.Prompt?
    ensures Spared(After(m, step), op)
  {
    StepFiled(m, step);
    StepStaysShut(m, step);
    RecordsKept(m, step);
    var y := After(m, step);
    if step.Pop? {
      PopKeepsOps(m, step.ids, step.calls);
      PopStaysShut(m, step.ids, step.calls);
    } else if Elsewhere(step) {
      ElsewhereKeepsOps(m, step);
      ElsewhereKeepsCancelled(m, step);
    }
    assert Claimed(y, op) == Claimed(m, op);
  }

  lemma ElsewhereKeepsCancelled(m: Machine, step: Step)
    requires Shut(m) && Elsewhere(step) && !step.Prompt?
    ensures After(m, step).s.index == m.s.index
  {
    if step.SubmitPrompt? {
      SubmitStaysShut(m, step.id, step.ok);
    } else if step.Fire? || step.Stream? || step.EndRequest? || step.Exit? || step.EndAbort? {
      OthersStayShut(m, step);
    } else {
      ClientStaysShut(m, step);
    }
  }

  lemma StepSpared(m: Machine, step: Step, op: OpId)
    requires Spared(m, op) && Enabled(m, step) && !step.Prompt? && ReadyAdds([step], op)
    ensures Spared(After(m, step), op)
  {
    match step
    case Persist => PersistSpared(m, op);
    case AppendItem(item) => AppendSpared(m, item, op);
    case StartTurn(turnId, mutedId) => StartSpared(m, turnId, mutedId, op);
    case AddOp(added, mode) =>
      assert [step][0] == step;
      AddSpared(m, added, mode, op);
    case Permit(_, _, _) => PermitSpared(m, step, op);
    case DoAction(_, _) => DoSpared(m, step, op);
    case CancelNext(i) => CancelSpared(m, i, op);
    case _ => RestSpared(m, step, op);
  }

  lemma {:induction false} RunSpared(m: Machine, steps: seq<Step>, op: OpId)
    requires Spared(m, op) && Run(m, steps) && NoPrompt(steps) && ReadyAdds(steps, op)
    ensures Spared(Final(m, steps), op)
    decreases |steps|
  {
    if steps != [] {
      assert [steps[0]][0] == steps[0];
      StepSpared(m, steps[0], op);
      assert forall i | 0 <= i < |steps[1..]| :: steps[1..][i] == steps[i + 1];
      RunSpared(After(m, steps[0]), steps[1..], op);
    }
  }

  // ---- what may still start ----

  lemma AbortShuts(m: Machine, ids: seq<OpId>)
    requires Filed(m.s) && Abortable(m.s.turns)
    ensures var y := StartedAbort(m, ids);
            && Shut(y) && Filed(y.s) && y.s.ops == m.s.ops && y.todo == m.todo
            && y.s.index.opCall == m.s.index.opCall
            && y.s.index.cancelledCalls == m.s.index.cancelledCalls + m.s.sync.outstanding.Keys
  {
  }

  /** Cancelled work never starts: from the locked section of an abort to the next prompt, however
      the session goes on, an operation of a call that was running at the abort, or that a later
      response asks for, is neither held nor given to the inner manager, unless it already was
      held, decided on or accepted at the abort. */
  lemma CancelledWorkNeverStarts(
    log: seq<Item>, m: Machine, ids: seq<OpId>, steps: seq<Step>, c: CallId, op: OpId)
    requires SensibleLog(log) && Reaches(Opened(log), m) && Abortable(m.s.turns)
    requires Run(StartedAbort(m, ids), steps) && NoPrompt(steps) && ReadyAdds(steps, op)
    requires !Claimed(m, op) && op !in m.s.ops.held
    requires c in m.s.sync.outstanding || Requested(steps, c)
    requires Final(StartedAbort(m, ids), steps).s.index.CallOf(op) == c
    ensures var z := Final(StartedAbort(m, ids), steps); !Claimed(z, op) && op !in z.s.ops.held
  {
    ReachedFiled(log, m);
    AbortShuts(m, ids);
    var y := StartedAbort(m, ids);
    assert !Claimed(y, op);
    RunSpared(y, steps, op);
    RunCancels(y, steps, c);
  }

  /** Operation `op` may still start before the next prompt; with `restored`, also by being added
      as one that is already under way, as a new generation adds what an old one left. */
  ghost predicate MayStart(y: Machine, op: OpId, restored: bool) {
    exists steps | Run(y, steps) && NoPrompt(steps) && (restored || ReadyAdds(steps, op)) ::
      op in Final(y, steps).s.ops.inner
  }

  lemma DecidedStarts(y: Machine, op: OpId) returns (step: Step)
    requires Decided(y, op)
    ensures Enabled(y, step) && !step.Prompt? && !step.AddOp? && op in After(y, step).s.ops.inner
  {
    var a :| a in y.todo && Forwards(a, op);
    var i :| 0 <= i < |y.todo| && y.todo[i] == a;
    step := DoAction(i, true);
    var inner := After(y, step).s.ops.inner;
    assert inner[|inner| - 1] == op;
  }

  /** An approval that arrives in time decides on a held operation. */
  lemma HeldIsDecided(y: Machine, op: OpId)
    requires Filed(y.s) && op in y.s.ops.held
    ensures Decided(After(y, Permit(op, true, false)), op)
  {
    var z := After(y, Permit(op, true, false));
    assert Forwards(z.todo[|y.todo|], op);
  }

  lemma HeldOrDecidedStarts(y: Machine, op: OpId, restored: bool)
    requires Filed(y.s) && (op in y.s.ops.held || Decided(y, op))
    ensures MayStart(y, op, restored)
  {
    if Decided(y, op) {
      var step := DecidedStarts(y, op);
      RunOne(y, step);
    } else {
      HeldIsDecided(y, op);
      var z := After(y, Permit(op, true, false));
      var step := DecidedStarts(z, op);
      RunOne(z, step);
      RunFirst(y, Permit(op, true, false), [step]);
      assert NoPrompt([Permit(op, true, false)] + [step]) && ReadyAdds([Permit(op, true, false)] + [step], op);
    }
  }

  /** An operation the decorator has never seen starts when it is added as already under way. */
  lemma RestoredStarts(y: Machine, op: OpId)
    requires op in y.s.index.opCall && op !in y.s.ops.held && op !in y.s.ops.latest
    ensures MayStart(y, op, true)
  {
    var add := AddOp(Operation(op, false, false, Awaiting, ""), Auto);
    var z := After(y, add);
    assert Forwards(z.todo[|y.todo|], op);
    var step := DecidedStarts(z, op);
    RunOne(z, step);
    RunFirst(y, add, [step]);
    assert NoPrompt([add] + [step]);
  }

  /** The decorator has seen `op`, and nothing is left that could start it. */
  predicate Spent(m: Machine, op: OpId) {
    op in m.s.ops.latest && op !in m.s.ops.held && !Claimed(m, op)
  }

  lemma AddStaysSpent(m: Machine, added: Operation, mode: PermissionMode, op: OpId)
    requires Spent(m, op)
    ensures Spent(Added(m, added, mode), op)
  {
    var y := Added(m, added, mode);
    assert forall a | a in y.todo :: a in m.todo || !Forwards(a, op);
  }

  lemma PermitStaysSpent(m: Machine, held: OpId, allow: bool, always: bool, op: OpId)
    requires Spent(m, op) && Filed(m.s)
    ensures Spent(Permitted(m, held, allow, always), op)
  {
    var y := Permitted(m, held, allow, always);
    assert forall a | a in y.todo :: a in m.todo || !Forwards(a, op);
  }

  lemma DoStaysSpent(m: Machine, i: nat, accepted: bool, op: OpId)
    requires Spent(m, op) && i < |m.todo|
    ensures Spent(Done(m, i, accepted), op)
  {
    assert m.todo[i] in m.todo;
    assert forall a | a in Done(m, i, accepted).todo :: a in m.todo;
  }

  lemma CancelStaysSpent(m: Machine, i: nat, op: OpId)
    requires Spent(m, op) && Enabled(m, CancelNext(i))
    ensures Spent(CancelledNext(m, i), op)
  {
    assert CancelledNext(m, i).todo == m.todo;
  }

  lemma QuietStaysSpent(m: Machine, step: Step, op: OpId)
    requires Spent(m, op) && (Appends(step) || step.PumpOp? || step.Deliver?)
    ensures Spent(After(m, step), op)
  {
    assert After(m, step).todo == m.todo;
  }

  lemma StepStaysSpent(m: Machine, step: Step, op: OpId)
    requires Spent(m, op) && Filed(m.s) && Enabled(m, step)
    ensures Spent(After(m, step), op)
  {
    match step
    case AddOp(added, mode) => AddStaysSpent(m, added, mode, op);
    case Pop(ids, calls) => PopKeepsOps(m, ids, calls);
    case Permit(held, allow, always) => PermitStaysSpent(m, held, allow, always, op);
    case DoAction(i, accepted) => DoStaysSpent(m, i, accepted, op);
    case CancelNext(i) => CancelStaysSpent(m, i, op);
    case _ => if Elsewhere(step) {
      ElsewhereKeepsOps(m, step);
    } else {
      QuietStaysSpent(m, step, op);
    }
  }

  /** What is spent never starts, whatever is added again. */
  lemma {:induction false} SpentNeverStarts(m: Machine, steps: seq<Step>, op: OpId)
    requires Spent(m, op) && Filed(m.s) && Run(m, steps)
    ensures Spent(Final(m, steps), op)
    decreases |steps|
  {
    if steps != [] {
      StepStaysSpent(m, steps[0], op);
      StepFiled(m, steps[0]);
      SpentNeverStarts(After(m, steps[0]), steps[1..], op);
    }
  }

  lemma OtherwiseNeverStarts(y: Machine, c: CallId, op: OpId)
    requires Shut(y) && Filed(y.s) && !Claimed(y, op) && op !in y.s.ops.held
    requires op in y.s.index.opCall && y.s.index.opCall[op] == c && c in y.s.index.cancelledCalls
    ensures !MayStart(y, op, false)
    ensures MayStart(y, op, true) <==> op !in y.s.ops.latest
  {
    forall steps | Run(y, steps) && NoPrompt(steps) && ReadyAdds(steps, op)
      ensures op !in Final(y, steps).s.ops.inner
    {
      RunSpared(y, steps, op);
      RunCancels(y, steps, c);
      OpCallsKept(y, steps, op);
      assert !Claimed(Final(y, steps), op);
    }
    if op !in y.s.ops.latest {
      RestoredStarts(y, op);
    } else {
      forall steps | Run(y, steps)
        ensures op !in Final(y, steps).s.ops.inner
      {
        SpentNeverStarts(y, steps, op);
      }
    }
  }

  /** At every point from the locked section of an abort to the next prompt, an operation of a
      cancelled call that the inner manager does not have yet can still start if and only if it
      is held, so that an approval may yet arrive, or its start is decided and only the call of
      the inner manager, made outside the lock, is outstanding; or, where operations may be
      restored, if the decorator has never seen it. */
  lemma OnlyHeldOrDecidedStart(
    log: seq<Item>, m: Machine, ids: seq<OpId>, steps: seq<Step>, y: Machine, c: CallId, op: OpId)
    requires SensibleLog(log) && Reaches(Opened(log), m) && Abortable(m.s.turns)
    requires Run(StartedAbort(m, ids), steps) && NoPrompt(steps) && y == Final(StartedAbort(m, ids), steps)
    requires c in m.s.sync.outstanding || Requested(steps, c)
    requires op in y.s.index.opCall && y.s.index.opCall[op] == c && op !in y.s.ops.inner
    ensures MayStart(y, op, false) <==> op in y.s.ops.held || Decided(y, op)
    ensures MayStart(y, op, true) <==> op in y.s.ops.held || Decided(y, op) || op !in y.s.ops.latest
  {
    ReachedFiled(log, m);
    AbortShuts(m, ids);
    RunFiled(StartedAbort(m, ids), steps);
    RunCancels(StartedAbort(m, ids), steps, c);
    if op in y.s.ops.held || Decided(y, op) {
      HeldOrDecidedStarts(y, op, false);
      HeldOrDecidedStarts(y, op, true);
    } else {
      OtherwiseNeverStarts(y, c, op);
    }
  }

  lemma OpCallKept(m: Machine, step: Step, op: OpId)
    requires Enabled(m, step) && op in m.s.index.opCall
    ensures var ix := After(m, step).s.index; op in ix.opCall && ix.opCall[op] == m.s.index.opCall[op]
  {
    if !Appends(step) {
      RecordsKept(m, step);
    }
  }

  lemma {:induction false} OpCallsKept(m: Machine, steps: seq<Step>, op: OpId)
    requires Run(m, steps) && op in m.s.index.opCall
    ensures var z := Final(m, steps); op in z.s.index.opCall && z.s.index.opCall[op] == m.s.index.opCall[op]
    decreases |steps|
  {
    if steps != [] {
      OpCallKept(m, steps[0], op);
      OpCallsKept(After(m, steps[0]), steps[1..], op);
    }
  }

  // ---- the abort reaches every operation ----

  /** The step is the abort's call of ops.Cancel for `op`. */
  predicate Cancels(m: Machine, step: Step, op: OpId) {
    step.CancelNext? && step.task < |m.aborts| && m.aborts[step.task].ids != [] && m.aborts[step.task].ids[0] == op
  }

  /** What ops.Cancel owes operation `op`: withdrawn and answered as canceled if it was held, left
      alone if it had ended, and otherwise passed to the inner manager's Cancel. */
  predicate Reached(a: OpsState, b: OpsState, op: OpId) {
    && op !in b.held
    && (if op in a.held then op in b.latest && b.latest[op].status == Canceled && b.latest[op] in b.queue
        else if op in a.latest && a.latest[op].status.Terminal() then b == a
        else b == a.(cancels := a.cancels + [op]))
  }

  lemma CancelReaches(m: Machine, step: Step, op: OpId)
    requires Filed(m.s) && Cancels(m, step, op)
    ensures Reached(m.s.ops, After(m, step).s.ops, op)
  {
    var a := m.s.ops;
    var b := CancelNow(a, op, m.aborts[step.task].reason);
    if op in a.held {
      assert b.queue[|a.queue|] == b.latest[op];
    }
  }

  /** Once its own cancellation has run, an operation of a cancelled call can start only if that
      was decided by then, or if the decorator has never seen it and it is restored. */
  lemma CancelledStartsOnlyIfDecided(
    log: seq<Item>, m: Machine, ids: seq<OpId>, steps: seq<Step>, y: Machine, step: Step, c: CallId, op: OpId)
    requires SensibleLog(log) && Reaches(Opened(log), m) && Abortable(m.s.turns)
    requires Run(StartedAbort(m, ids), steps) && NoPrompt(steps) && y == Final(StartedAbort(m, ids), steps)
    requires c in m.s.sync.outstanding || Requested(steps, c)
    requires op in y.s.index.opCall && y.s.index.opCall[op] == c && op !in y.s.ops.inner && Cancels(y, step, op)
    ensures var z := After(y, step);
            && (MayStart(z, op, false) <==> Decided(z, op))
            && (MayStart(z, op, true) <==> Decided(z, op) || op !in z.s.ops.latest)
  {
    ReachedFiled(log, m);
    AbortShuts(m, ids);
    RunFiled(StartedAbort(m, ids), steps);
    RunCancels(StartedAbort(m, ids), steps, c);
    AfterItsCancel(y, step, c, op);
  }

  lemma AfterItsCancel(y: Machine, step: Step, c: CallId, op: OpId)
    requires Shut(y) && Filed(y.s) && Cancels(y, step, op) && op !in y.s.ops.inner
    requires op in y.s.index.opCall && y.s.index.opCall[op] == c && c in y.s.index.cancelledCalls
    ensures var z := After(y, step);
            && (MayStart(z, op, false) <==> Decided(z, op))
            && (MayStart(z, op, true) <==> Decided(z, op) || op !in z.s.ops.latest)
  {
    var z := After(y, step);
    CancelReaches(y, step, op);
    ManagerFiled(y, step);
    OthersStayShut(y, step);
    RecordsKept(y, step);
    if Decided(z, op) {
      HeldOrDecidedStarts(z, op, false);
      HeldOrDecidedStarts(z, op, true);
    } else {
      assert z.s.ops.inner == y.s.ops.inner;
      OtherwiseNeverStarts(z, c, op);
    }
  }

  /** Some abort still has to cancel `op`. */
  predicate ToCancel(m: Machine, k: nat, op: OpId) {
    exists i | 0 <= i < |m.aborts| :: m.aborts[i].turn == k && op in m.aborts[i].ids
  }

  lemma TasksKept(m: Machine, step: Step)
    requires !step.CancelNext? && !step.EndAbort?
    ensures m.aborts <= After(m, step).aborts
  {
  }

  lemma StepToCancel(m: Machine, step: Step, k: nat, op: OpId)
    requires ToCancel(m, k, op) && Enabled(m, step) && !Cancels(m, step, op)
    ensures ToCancel(After(m, step), k, op)
  {
    var y := After(m, step);
    var i :| 0 <= i < |m.aborts| && m.aborts[i].turn == k && op in m.aborts[i].ids;
    if step.CancelNext? {
      var ids := m.aborts[step.task].ids;
      assert ids == [ids[0]] + ids[1..];
      assert y.aborts[i].turn == k && op in y.aborts[i].ids;
    } else if step.EndAbort? {
      assert i != step.task;
      var j := if i < step.task then i else i - 1;
      assert y.aborts[j] == m.aborts[i];
    } else {
      TasksKept(m, step);
      assert y.aborts[i] == m.aborts[i];
    }
  }

  lemma {:induction false} RunReaches(m: Machine, steps: seq<Step>, k: nat, op: OpId) returns (j: nat)
    requires Filed(m.s) && Run(m, steps) && ToCancel(m, k, op) && !ToCancel(Final(m, steps), k, op)
    ensures j < |steps| && Cancels(Final(m, steps[..j]), steps[j], op)
    ensures var w := Final(m, steps[..j]); Reached(w.s.ops, After(w, steps[j]).s.ops, op)
    decreases |steps|
  {
    if Cancels(m, steps[0], op) {
      CancelReaches(m, steps[0], op);
      j := 0;
    } else {
      StepToCancel(m, steps[0], k, op);
      StepFiled(m, steps[0]);
      var i := RunReaches(After(m, steps[0]), steps[1..], k, op);
      j := i + 1;
      assert steps[..j][1..] == steps[1..][..i] && steps[..j][0] == steps[0];
    }
  }

  /** An abort reaches every operation some running call waits for: by the time none of its
      cancellations is left, ops.Cancel was called for the operation, in whatever order and
      whatever came in between, and left it withdrawn and answered, ended, or passed on. */
  lemma AbortReachesAll(log: seq<Item>, m: Machine, ids: seq<OpId>, steps: seq<Step>, op: OpId) returns (j: nat)
    requires SensibleLog(log) && Reaches(Opened(log), m) && Abortable(m.s.turns) && Enumerates(ids, m.s)
    requires op in m.s.sync.PendingOps() && Run(StartedAbort(m, ids), steps)
    requires !ToCancel(Final(StartedAbort(m, ids), steps), m.s.turns.current.value, op)
    ensures j < |steps| && Cancels(Final(StartedAbort(m, ids), steps[..j]), steps[j], op)
    ensures var w := Final(StartedAbort(m, ids), steps[..j]); Reached(w.s.ops, After(w, steps[j]).s.ops, op)
  {
    ReachedFiled(log, m);
    AbortShuts(m, ids);
    var y := StartedAbort(m, ids);
    var task := y.aborts[|m.aborts|];
    assert task.turn == m.s.turns.current.value && op in task.ids;
    j := RunReaches(y, steps, m.s.turns.current.value, op);
  }

  /** And it tells why: a shell command withdrawn by an abort is answered with who did it. */
  lemma AbortTellsWhy(log: seq<Item>, m: Machine, ids: seq<OpId>)
    requires SensibleLog(log) && Reaches(Opened(log), m) && Enabled(m, Abort(ids)) && Abortable(m.s.turns)
    requires ids != [] && ids[0] in m.s.ops.held && m.s.ops.held[ids[0]].shell
    ensures var y := StartedAbort(m, ids);
            && Enabled(y, CancelNext(|m.aborts|))
            && var queue := After(y, CancelNext(|m.aborts|)).s.ops.queue;
               && |queue| == |m.s.ops.queue| + 1 && queue[|m.s.ops.queue|].id == ids[0]
               && queue[|m.s.ops.queue|].status == Canceled
               && queue[|m.s.ops.queue|].note == "canceled before approval: " +
                    if m.s.turns.Now().value.clientCancelled then "Cancelled by the user"
                    else "Aborted: the model request failed"
  {
    ReachedFiled(log, m);
    var y := StartedAbort(m, ids);
    assert y.s.ops == m.s.ops && y.aborts[|m.aborts|].ids == ids;
  }
}
