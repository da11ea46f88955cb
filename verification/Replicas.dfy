/** The two mirrors: one applied as items are appended, one behind the event queue. */
module Replicas {
  import opened Harness
  import opened Mirrors
  import opened Gates
  import opened Ops
  import opened SessionSteps
  import opened SessionRuns

  /** The items still in the event queue. */
  function Items(events: seq<Event>): seq<Item> {
    if events == [] then []
    else Items(events[..|events| - 1]) +
         if events[|events| - 1].EvItem? then [events[|events| - 1].item] else []
  }

  /** Both mirrors are folds of the log, and the queue holds exactly what lies between them. */
  ghost predicate Replicated(m: Machine) {
    && m.applied <= |m.log|
    && m.s.sync == Fold(m.log)
    && m.s.am == Fold(m.log[..m.applied])
    && Items(m.s.events) == m.log[m.applied..]
  }

  lemma ItemsAppend(events: seq<Event>, ev: Event)
    ensures Items(events + [ev]) == Items(events) + if ev.EvItem? then [ev.item] else []
  {
    assert (events + [ev])[..|events|] == events;
  }

  lemma {:induction false} ItemsHead(events: seq<Event>)
    requires events != []
    ensures Items(events) == (if events[0].EvItem? then [events[0].item] else []) + Items(events[1..])
    decreases |events|
  {
    if |events| == 1 {
      assert events[..0] == [] && events[1..] == [];
    } else {
      var last := |events| - 1;
      ItemsHead(events[..last]);
      assert events[1..][..last - 1] == events[..last][1..];
    }
  }

  /** Neither mirror, nor the log, nor the items queued are touched. */
  ghost predicate Untouched(s: Session, t: Session) {
    s.sync == t.sync && s.am == t.am && Items(s.events) == Items(t.events)
  }

  lemma OpsUntouched(s: Session, ops: OpsState)
    ensures Untouched(s, WithOps(s, ops))
  {
    if |ops.tapped| > |s.ops.tapped| {
      ItemsAppend(s.events, EvOp(ops.tapped[|ops.tapped| - 1]));
    } else {
      assert s.events + [] == s.events;
    }
  }

  lemma AppendReplicated(m: Machine, item: Item)
    requires Replicated(m)
    ensures Replicated(Append(m, item))
  {
    var y := Append(m, item);
    assert y.log[..|m.log|] == m.log;
    assert y.log[..m.applied] == m.log[..m.applied];
    assert y.log[m.applied..] == m.log[m.applied..] + [item];
    ItemsAppend(m.s.events, EvItem(item));
  }

  lemma PopItemReplicated(m: Machine, ids: seq<OpId>, calls: seq<CallId>)
    requires Replicated(m) && m.s.events != [] && m.s.events[0].EvItem?
    ensures Replicated(Popped(m, ids, calls))
  {
    ItemsHead(m.s.events);
    assert m.log[m.applied..][0] == m.log[m.applied];
    assert m.log[..m.applied + 1][..m.applied] == m.log[..m.applied];
    assert m.log[m.applied..][1..] == m.log[m.applied + 1..];
  }

  lemma HandledUntouched(s: Session, ev: Event, calls: seq<CallId>)
    requires !ev.EvItem?
    ensures Untouched(s, Handled(s, ev, calls))
  {
    HandledKeepsRecords(s, ev, calls);
  }

  lemma PopReplicated(m: Machine, ids: seq<OpId>, calls: seq<CallId>)
    requires Replicated(m) && m.s.events != []
    ensures Replicated(Popped(m, ids, calls))
  {
    if m.s.events[0].EvItem? {
      PopItemReplicated(m, ids, calls);
    } else {
      ItemsHead(m.s.events);
      HandledUntouched(m.s.(events := m.s.events[1..]), m.s.events[0], calls);
    }
  }

  /** Posting an event that is no item, or none at all. */
  lemma Posts(m: Machine, y: Machine, more: seq<Event>)
    requires Replicated(m)
    requires y.log == m.log && y.applied == m.applied && y.s.sync == m.s.sync && y.s.am == m.s.am
    requires y.s.events == m.s.events + more && |more| <= 1 && (more != [] ==> !more[0].EvItem?)
    ensures Replicated(y)
  {
    if more == [] {
      assert m.s.events + [] == m.s.events;
    } else {
      ItemsAppend(m.s.events, more[0]);
    }
  }

  lemma EventReplicated(m: Machine, step: Step)
    requires Replicated(m) && Enabled(m, step)
    requires step.Fire? || step.Stream? || step.EndRequest? || step.Exit?
    ensures Replicated(After(m, step))
  {
    var y := After(m, step);
    match step
    case Fire(timer) =>
      Posts(m, y, [if timer.GraceTimer? then EvCancelGrace(timer.turn) else EvCancelFlush(timer.turn)]);
    case Stream(delta) => Posts(m, y, [EvDelta(delta)]);
    case EndRequest(r) =>
      var reply := End(m.s.gate, m.s.gate.inflightSeq, r).1;
      Posts(m, y, if reply.Reply? && reply.outcome == Errored then [EvModelError(r.model)] else []);
    case Exit(failed) => Posts(m, y, [EvRunExit(m.live.value, failed)]);
  }

  lemma AddReplicated(m: Machine, op: Operation, mode: PermissionMode)
    requires Replicated(m)
    ensures Replicated(Added(m, op, mode))
  {
    var y := Added(m, op, mode);
    Posts(m, y, if |y.s.ops.asked| > |m.s.ops.asked| then [EvPermission(op)] else []);
  }

  lemma SteerReplicated(m: Machine, id: InputId, interrupt: bool)
    requires Replicated(m)
    ensures Replicated(TakeSteer(m, id, interrupt))
  {
    Posts(m, TakeSteer(m, id, interrupt), if Abortable(m.s.turns) && !interrupt then [EvWake] else []);
  }

  lemma PromptReplicated(m: Machine, id: InputId, ok: bool)
    requires Replicated(m)
    ensures Replicated(TakePrompt(m, id)) && Replicated(SubmittedPrompt(m, id, ok))
  {
  }

  lemma ClientReplicated(m: Machine, step: Step)
    requires Replicated(m) && (step.SubmitSteer? || step.Evaluate? || step.SubmitNext?)
    ensures Replicated(After(m, step))
  {
  }

  lemma StepReplicated(m: Machine, step: Step)
    requires Replicated(m) && Enabled(m, step)
    ensures Replicated(After(m, step))
  {
    match step
    case Persist => AppendReplicated(m.(inbox := m.inbox[1..]), Input(m.inbox[0], External));
    case AppendItem(item) => AppendReplicated(m, item);
    case StartTurn(turnId, _) => AppendReplicated(m, Turn(turnId));
    case Abort(_) =>
    case CancelNext(i) => OpsUntouched(m.s, CancelNow(m.s.ops, m.aborts[i].ids[0], m.aborts[i].reason));
    case EndAbort(_) => Posts(m, After(m, step), [EvWake]);
    case Pop(ids, calls) => PopReplicated(m, ids, calls);
    case DoAction(i, accepted) => OpsUntouched(m.s, Perform(m.s.ops, m.todo[i], accepted, true));
    case PumpOp(op) => OpsUntouched(m.s, Emit(m.s.ops, op));
    case Mark =>
    case Permit(_, _, _) =>
    case Deliver =>
    case Prompt(id) => PromptReplicated(m, id, true);
    case SubmitPrompt(id, ok) => PromptReplicated(m, id, ok);
    case Steer(id, interrupt) => SteerReplicated(m, id, interrupt);
    case AddOp(op, mode) => AddReplicated(m, op, mode);
    case SubmitSteer(_) => ClientReplicated(m, step);
    case Evaluate => ClientReplicated(m, step);
    case SubmitNext => ClientReplicated(m, step);
    case _ => EventReplicated(m, step);
  }

  lemma {:induction false} RunReplicated(m: Machine, steps: seq<Step>)
    requires Replicated(m) && Run(m, steps)
    ensures Replicated(Final(m, steps))
    decreases |steps|
  {
    if steps != [] {
      StepReplicated(m, steps[0]);
      RunReplicated(After(m, steps[0]), steps[1..]);
    }
  }

  lemma ReachedReplicated(a: Machine, b: Machine)
    requires Replicated(a) && Reaches(a, b)
    ensures Replicated(b)
  {
    var steps :| Run(a, steps) && b == Final(a, steps);
    RunReplicated(a, steps);
  }

  lemma OpenedReplicated(log: seq<Item>)
    ensures Replicated(Opened(log))
  {
    assert log[..|log|] == log && log[|log|..] == [];
  }

  /** Two-replica agreement: in every run from any log, the mirror the gate reads is the actor's
      mirror with the queued items applied, and opening the log afresh gives that same mirror. */
  lemma ReplicasAgree(log: seq<Item>, m: Machine)
    requires Reaches(Opened(log), m)
    ensures m.s.sync == FoldFrom(m.s.am, Items(m.s.events))
    ensures m.s.sync == Opened(m.log).s.sync
    ensures m.applied <= |m.log| && m.s.am == Fold(m.log[..m.applied])
  {
    OpenedReplicated(log);
    ReachedReplicated(Opened(log), m);
    assert m.log[..m.applied] + m.log[m.applied..] == m.log;
    FoldSplits(EMPTY, m.log[..m.applied], m.log[m.applied..]);
  }
}
