/** Which operations may start at all: the policy and the approvals over whole runs. */
module Approvals {
  import opened Harness
  import opened Ops
  import opened SessionSteps
  import opened SessionRuns
  import opened CancelledWork

  /** An operation that may start without asking: one that is not ready to start but is being
      restored, or one whose call is not cancelled and that is no shell command, or a shell
      command when the session or the client allows everything, or one on the list that the
      client does not reject. */
  predicate Unasked(m: Machine, op: Operation, mode: PermissionMode) {
    op.status != Ready ||
    (m.s.index.CallOf(op.id) !in m.s.index.cancelledCalls &&
     (!op.shell || mode == Auto || m.s.alwaysAllow || (mode == Allowlist && op.listed && !m.s.alwaysReject)))
  }

  /** The operations a step licenses to start: by policy when added, or by the client's approval
      while held for it. */
  function Licensed(m: Machine, step: Step): set<OpId> {
    match step
    case AddOp(op, mode) => if Unasked(m, op, mode) then {op.id} else {}
    case Permit(held, allow, _) => if allow && held in m.s.ops.held then {held} else {}
    case _ => {}
  }

  // ---- what becomes of a new operation ----

  /** An operation of a call that is not cancelled and that the client did not reject in advance, but
      which needs to be asked about. */
  predicate Askable(m: Machine, op: Operation, mode: PermissionMode) {
    !Unasked(m, op, mode) && m.s.index.CallOf(op.id) !in m.s.index.cancelledCalls && !m.s.alwaysReject
  }

  /** The policy decides exactly: of an operation added for the first time, the forward to the inner
      manager is under way if and only if it needs no asking; it is held, and the client asked, if
      and only if it needs asking and may be asked about; and in the remaining cases its answer as
      canceled is under way. */
  lemma NewOperationsAreJudged(m: Machine, op: Operation, mode: PermissionMode)
    requires op.id !in m.s.ops.held && op.id !in m.s.ops.latest
    ensures var y := After(m, AddOp(op, mode));
            && (y.todo == m.todo + [Forwarding(op, false)] <==> Unasked(m, op, mode))
            && (op.id in y.s.ops.held <==> Askable(m, op, mode))
            && (Askable(m, op, mode) ==>
                  && y.s.ops.held == m.s.ops.held[op.id := op] && y.todo == m.todo
                  && y.s.events == m.s.events + [EvPermission(op)])
            && (!Askable(m, op, mode) ==> y.s.ops.held == m.s.ops.held && y.s.events == m.s.events)
            && (!Unasked(m, op, mode) && !Askable(m, op, mode) ==>
                  exists snapshot: Operation | snapshot.id == op.id && snapshot.status == Canceled ::
                    y.todo == m.todo + [Emission(snapshot, true)])
  {
    var y := After(m, AddOp(op, mode));
    if Askable(m, op, mode) {
      assert |m.todo + [Forwarding(op, false)]| == |m.todo| + 1;
    } else if !Unasked(m, op, mode) {
      var answer := TerminalSnapshot(op, Canceled, "not allowed");
      assert answer.id == op.id && answer.status == Canceled && y.todo == m.todo + [Emission(answer, true)];
      assert (m.todo + [Forwarding(op, false)])[|m.todo|] != y.todo[|m.todo|];
    }
  }

  // ---- licences ----

  predicate Adds(step: Step, op: OpId) {
    step.AddOp? && step.op.id == op
  }

  /** Step `i` of the run licensed `op`; an approval came after the operation was added. */
  ghost predicate LicensedBy(m: Machine, steps: seq<Step>, i: nat, op: OpId) {
    && i < |steps| && op in Licensed(Final(m, steps[..i]), steps[i])
    && (steps[i].Permit? ==> exists h | 0 <= h < i :: Adds(steps[h], op))
  }

  /** After the run: what is claimed was licensed by one of its steps, and what is held was added
      by one. */
  ghost predicate Lawful(m: Machine, steps: seq<Step>, op: OpId) {
    && Filed(Final(m, steps).s)
    && (Claimed(Final(m, steps), op) ==> exists i :: LicensedBy(m, steps, i, op))
    && (op in Final(m, steps).s.ops.held ==> exists h | 0 <= h < |steps| :: Adds(steps[h], op))
  }

  // ---- what one step claims ----

  /** A step claims only what it licenses, and holds only what it adds. */
  predicate Heeds(m: Machine, step: Step, op: OpId) {
    && (Claimed(After(m, step), op) ==> Claimed(m, op) || op in Licensed(m, step))
    && (op in After(m, step).s.ops.held ==> op in m.s.ops.held || Adds(step, op))
  }

  lemma AddHeeds(m: Machine, added: Operation, mode: PermissionMode, op: OpId)
    ensures Heeds(m, AddOp(added, mode), op)
  {
    var y := Added(m, added, mode);
    if Claimed(y, op) && !Claimed(m, op) {
      var a :| a in y.todo && Forwards(a, op);
      assert a in m.todo || a == AddLocked(m.s.ops, added, Policy(m.s, mode, added), "not allowed", true).1;
    }
  }

  lemma PermitHeeds(m: Machine, held: OpId, allow: bool, always: bool, op: OpId)
    requires Filed(m.s)
    ensures Heeds(m, Permit(held, allow, always), op)
  {
    var y := Permitted(m, held, allow, always);
    if Claimed(y, op) && !Claimed(m, op) {
      var a :| a in y.todo && Forwards(a, op);
      assert a in m.todo || a == DecideLocked(m.s.ops, held, allow, "rejected").1;
    }
  }

  lemma ActionHeeds(m: Machine, i: nat, accepted: bool, op: OpId)
    requires i < |m.todo|
    ensures Heeds(m, DoAction(i, accepted), op)
  {
    var y := Done(m, i, accepted);
    assert m.todo[i] in m.todo;
    if Claimed(y, op) {
      if op !in y.s.ops.inner {
        var a :| a in y.todo && Forwards(a, op);
        assert a in m.todo;
      } else if op !in m.s.ops.inner {
        assert Forwards(m.todo[i], op);
      }
      assert Claimed(m, op);
    }
  }

  lemma CancelHeeds(m: Machine, i: nat, op: OpId)
    ensures Heeds(m, CancelNext(i), op)
  {
    assert Claimed(CancelledNext(m, i), op) == Claimed(m, op);
  }

  lemma AppendHeeds(m: Machine, step: Step, op: OpId)
    requires Appends(step) || step.PumpOp? || step.Deliver?
    ensures Heeds(m, step, op)
  {
    assert Claimed(After(m, step), op) == Claimed(m, op);
  }

  lemma RestHeeds(m: Machine, step: Step, op: OpId)
    requires Elsewhere(step) || step.Pop?
    ensures Heeds(m, step, op)
  {
    if step.Pop? {
      PopKeepsOps(m, step.ids, step.calls);
    } else {
      ElsewhereKeepsOps(m, step);
    }
    assert Claimed(After(m, step), op) == Claimed(m, op);
  }

  lemma StepHeeds(m: Machine, step: Step, op: OpId)
    requires Filed(m.s) && Enabled(m, step)
    ensures Heeds(m, step, op)
  {
    match step
    case AddOp(added, mode) => AddHeeds(m, added, mode, op);
    case Permit(held, allow, always) => PermitHeeds(m, held, allow, always, op);
    case DoAction(i, accepted) => ActionHeeds(m, i, accepted, op);
    case CancelNext(i) => CancelHeeds(m, i, op);
    case _ => if Elsewhere(step) || step.Pop? {
      RestHeeds(m, step, op);
    } else {
      AppendHeeds(m, step, op);
    }
  }

  // ---- whole runs ----

  lemma {:induction false} FinalSplits(m: Machine, steps: seq<Step>, last: Step)
    requires Run(m, steps + [last])
    ensures Run(m, steps) && Enabled(Final(m, steps), last)
    ensures Final(m, steps + [last]) == After(Final(m, steps), last)
    decreases |steps|
  {
    var all := steps + [last];
    if steps == [] {
      assert all[1..] == [];
    } else {
      assert all[0] == steps[0] && all[1..] == steps[1..] + [last];
      FinalSplits(After(m, steps[0]), steps[1..], last);
    }
  }

  lemma LicenceKept(m: Machine, steps: seq<Step>, last: Step, i: nat, op: OpId)
    requires LicensedBy(m, steps, i, op)
    ensures LicensedBy(m, steps + [last], i, op)
  {
    assert (steps + [last])[..i] == steps[..i];
  }

  lemma {:induction false} RunLawful(m: Machine, steps: seq<Step>, op: OpId)
    requires Filed(m.s) && Run(m, steps) && !Claimed(m, op) && op !in m.s.ops.held
    ensures Lawful(m, steps, op)
  {
    if steps != [] {
      var before, last := steps[..|steps| - 1], steps[|steps| - 1];
      assert steps == before + [last];
      FinalSplits(m, before, last);
      RunLawful(m, before, op);
      StepFiled(Final(m, before), last);
      StepHeeds(Final(m, before), last, op);
      StepLawful(m, before, last, op);
    }
  }

  lemma StepLawful(m: Machine, before: seq<Step>, last: Step, op: OpId)
    requires Lawful(m, before, op) && Heeds(Final(m, before), last, op)
    requires Final(m, before + [last]) == After(Final(m, before), last) && Filed(Final(m, before + [last]).s)
    ensures Lawful(m, before + [last], op)
  {
    var steps, w := before + [last], Final(m, before);
    assert steps[..|before|] == before && steps[|before|] == last;
    if op in Final(m, steps).s.ops.held {
      if Adds(last, op) {
        assert Adds(steps[|before|], op);
      } else {
        var h :| 0 <= h < |before| && Adds(before[h], op);
        assert Adds(steps[h], op);
      }
    }
    if Claimed(Final(m, steps), op) {
      if Claimed(w, op) {
        var i :| LicensedBy(m, before, i, op);
        LicenceKept(m, before, last, i, op);
      } else {
        NewLicence(m, before, last, op);
      }
    }
  }

  lemma NewLicence(m: Machine, before: seq<Step>, last: Step, op: OpId)
    requires Lawful(m, before, op) && op in Licensed(Final(m, before), last)
    ensures LicensedBy(m, before + [last], |before|, op)
  {
    var steps := before + [last];
    assert steps[..|before|] == before;
    if last.Permit? {
      var h :| 0 <= h < |before| && Adds(before[h], op);
      assert Adds(steps[h], op);
    }
  }

  /** No operation starts without a licence: in every run, whatever the inner manager was given
      was let through by the policy when it was added, or was added, held, and then approved by
      the client. */
  lemma NothingStartsUnlicensed(log: seq<Item>, steps: seq<Step>, op: OpId) returns (i: nat)
    requires SensibleLog(log) && Run(Opened(log), steps)
    requires op in Final(Opened(log), steps).s.ops.inner
    ensures LicensedBy(Opened(log), steps, i, op)
  {
    OpenedFiled(log);
    var m := Opened(log);
    assert m.todo == [] && m.s.ops.inner == [];
    RunLawful(m, steps, op);
    i :| LicensedBy(m, steps, i, op);
  }

  // ---- asking for everything ----

  /** The operation is only ever added as a shell command ready to start, in a session that asks,
      and the client never allows everything. */
  predicate AsksFor(steps: seq<Step>, op: OpId) {
    forall i | 0 <= i < |steps| ::
      && (Adds(steps[i], op) ==> steps[i].op.status == Ready && steps[i].op.shell && steps[i].mode == AskAlways)
      && (steps[i].Permit? ==> !(steps[i].allow && steps[i].always))
  }

  predicate SameChoices(m: Machine, y: Machine) {
    y.s.alwaysAllow == m.s.alwaysAllow && y.s.alwaysReject == m.s.alwaysReject
  }

  lemma EventsChooseNothing(s: Session, ev: Event, calls: seq<CallId>)
    ensures Handled(s, ev, calls).alwaysAllow == s.alwaysAllow && Handled(s, ev, calls).alwaysReject == s.alwaysReject
  {
  }

  lemma ClientChoosesNothing(m: Machine, step: Step)
    requires step.Prompt? || step.SubmitPrompt? || step.Mark? || step.Steer?
    ensures SameChoices(m, After(m, step))
  {
  }

  lemma SubmissionChoosesNothing(m: Machine, step: Step)
    requires step.SubmitSteer? || step.SubmitNext? || step.Abort? || step.CancelNext? || step.EndAbort?
    ensures SameChoices(m, After(m, step))
  {
  }

  lemma OthersChooseNothing(m: Machine, step: Step)
    requires step.Evaluate? || step.Fire? || Appends(step) || step.Stream? || step.EndRequest? || step.Exit? ||
             step.AddOp? || step.DoAction? || step.PumpOp? || step.Deliver?
    ensures SameChoices(m, After(m, step))
  {
    if step.Evaluate? || step.Fire? || Appends(step) || step.Stream? || step.EndRequest? || step.Exit? {
      TurnsAndItemsChooseNothing(m, step);
    }
  }

  lemma TurnsAndItemsChooseNothing(m: Machine, step: Step)
    requires step.Evaluate? || step.Fire? || Appends(step) || step.Stream? || step.EndRequest? || step.Exit?
    ensures SameChoices(m, After(m, step))
  {
  }

  /** Only the client's answer to a permission request sets a standing choice, and it does. */
  lemma OnlyPermitChooses(m: Machine, step: Step)
    requires Enabled(m, step)
    ensures After(m, step).s.alwaysAllow == (m.s.alwaysAllow || (step.Permit? && step.allow && step.always))
    ensures After(m, step).s.alwaysReject == (m.s.alwaysReject || (step.Permit? && !step.allow && step.always))
  {
    if step.Pop? {
      EventsChooseNothing(m.s.(events := m.s.events[1..]), m.s.events[0], step.calls);
    } else if step.Prompt? || step.SubmitPrompt? || step.Mark? || step.Steer? {
      ClientChoosesNothing(m, step);
    } else if step.SubmitSteer? || step.SubmitNext? || step.Abort? || step.CancelNext? || step.EndAbort? {
      SubmissionChoosesNothing(m, step);
    } else if !step.Permit? {
      OthersChooseNothing(m, step);
    }
  }

  lemma {:induction false} NoStandingChoice(m: Machine, steps: seq<Step>, op: OpId)
    requires Run(m, steps) && AsksFor(steps, op) && !m.s.alwaysAllow
    ensures !Final(m, steps).s.alwaysAllow
    decreases |steps|
  {
    if steps != [] {
      OnlyPermitChooses(m, steps[0]);
      assert forall i | 0 <= i < |steps[1..]| :: steps[1..][i] == steps[i + 1];
      NoStandingChoice(After(m, steps[0]), steps[1..], op);
    }
  }

  lemma {:induction false} PrefixRuns(m: Machine, steps: seq<Step>, i: nat)
    requires Run(m, steps) && i <= |steps|
    ensures Run(m, steps[..i])
    decreases i
  {
    if i > 0 {
      PrefixRuns(After(m, steps[0]), steps[1..], i - 1);
      assert steps[..i][0] == steps[0] && steps[..i][1..] == steps[1..][..i - 1];
    }
  }

  /** In a session that asks, a shell command starts only if the client approved it by name after
      it was added, whatever else the run adds, restores or cancels. */
  lemma ShellCommandsNeedApproval(log: seq<Item>, steps: seq<Step>, op: OpId) returns (i: nat)
    requires SensibleLog(log) && Run(Opened(log), steps) && AsksFor(steps, op)
    requires op in Final(Opened(log), steps).s.ops.inner
    ensures i < |steps| && steps[i].Permit? && steps[i].held == op && steps[i].allow
    ensures exists h | 0 <= h < i :: Adds(steps[h], op)
  {
    i := NothingStartsUnlicensed(log, steps, op);
    PrefixRuns(Opened(log), steps, i);
    NoStandingChoice(Opened(log), steps[..i], op);
  }

  lemma {:induction false} AllowAlwaysLasts(m: Machine, steps: seq<Step>)
    requires Run(m, steps) && m.s.alwaysAllow
    ensures Final(m, steps).s.alwaysAllow
    decreases |steps|
  {
    if steps != [] {
      OnlyPermitChooses(m, steps[0]);
      AllowAlwaysLasts(After(m, steps[0]), steps[1..]);
    }
  }

  /** The standing choices are not "the last one wins": once the client answered allow_always, no
      later answer, reject_always included, makes the policy ask or deny again, except for the
      calls of a cancelled turn. */
  lemma RejectAlwaysNeverUndoesAllowAlways(m: Machine, op: OpId, later: seq<Step>)
    requires Run(Permitted(m, op, true, true), later)
    ensures var y := Final(Permitted(m, op, true, true), later);
            forall added: Operation, mode: PermissionMode |
              y.s.index.CallOf(added.id) !in y.s.index.cancelledCalls ::
              Policy(y.s, mode, added) == Allow
  {
    AllowAlwaysLasts(Permitted(m, op, true, true), later);
  }
}
