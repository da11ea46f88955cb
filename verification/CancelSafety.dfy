/** After a cancel no request reaches the provider until the next prompt, provided the cancelled
    turn covers every submission under way. */
module CancelSafety {
  import opened Harness
  import opened Mirrors
  import opened Gates
  import opened Ops
  import opened SessionSteps
  import opened SessionRuns

  /** A submission the client made that no item records yet. */
  predicate OnTheWay(m: Machine, id: InputId) {
    id in m.inbox || id in m.transit || (m.actor.Submitting? && id in m.actor.steers)
  }

  /** What the next request would answer is recorded, and no heartbeat is among it. */
  predicate Known(s: Session) {
    forall i | 0 <= i < |s.sync.reasons| ::
      match s.sync.reasons[i]
      case InputReason(id) => id in s.index.inputs
      case CallReason(_) => true
      case HeartbeatReason(_) => false
  }

  /** Nothing can reach the provider: the gate is parked, everything a request could come to
      answer is parked, new calls will be, no turn takes input, and a request already in flight
      is marked stopped. */
  ghost predicate Muzzled(m: Machine) {
    && m.s.gate.parked && m.s.index.refuseNew && !Abortable(m.s.turns)
    && AllParked(m.s.gate, m.s.sync.reasons)
    && m.s.sync.outstanding.Keys <= m.s.gate.parkedCalls
    && (forall id | OnTheWay(m, id) :: id in m.s.gate.parkedInputs)
    && (m.s.gate.inflight ==> m.s.gate.userStop == m.s.gate.inflightSeq)
  }

  /** Every submission under way is the current turn's own, already recorded, or parked. */
  ghost predicate Covered(m: Machine) {
    m.s.turns.Now().Some? &&
    forall id | OnTheWay(m, id) ::
      id in m.s.index.inputs || id in m.s.turns.Now().value.unobserved || id in m.s.gate.parkedInputs
  }

  // ---- what each step keeps ----

  lemma AppendKnown(s: Session, item: Item)
    requires Known(s) && (item.Input? ==> item.kind != Heartbeat)
    ensures Known(Observed(s, item))
  {
  }

  lemma AppendMuzzled(m: Machine, item: Item)
    requires Muzzled(m) && !item.Turn?
    requires item.Input? ==> item.kind == OtherControl || (item.kind == External && item.id in m.s.gate.parkedInputs)
    ensures Muzzled(Append(m, item))
    ensures Append(m, item).s.gate.providerCalls == m.s.gate.providerCalls
  {
    var y := Append(m, item);
    assert y.s.gate.parkedInputs == m.s.gate.parkedInputs && m.s.gate.parkedCalls <= y.s.gate.parkedCalls;
    assert forall r :: ParkedReason(m.s.gate, r) ==> ParkedReason(y.s.gate, r);
    assert forall id :: OnTheWay(y, id) == OnTheWay(m, id);
    if item.ModelResponse? {
      assert CallIds(item.response.output) <= y.s.gate.parkedCalls;
    }
  }

  lemma StartMuted(m: Machine, turnId: TurnId, mutedId: ResponseId)
    requires Muzzled(m) && !m.s.gate.inflight
    ensures Muzzled(Started(m, turnId, mutedId))
    ensures Started(m, turnId, mutedId).s.gate.providerCalls == m.s.gate.providerCalls
  {
    var y := Started(m, turnId, mutedId);
    assert forall id :: OnTheWay(y, id) == OnTheWay(m, id);
  }

  /** A step that leaves the mirror, the gate's marks and the refusal alone, and puts nothing new
      on the way. */
  lemma QuietMuzzled(m: Machine, y: Machine)
    requires Muzzled(m)
    requires y.s.sync == m.s.sync && y.s.index == m.s.index && !Abortable(y.s.turns)
    requires y.s.gate.parked == m.s.gate.parked && y.s.gate.parkedCalls == m.s.gate.parkedCalls
    requires y.s.gate.parkedInputs == m.s.gate.parkedInputs
    requires y.s.gate.inflight ==> m.s.gate.inflight
    requires y.s.gate.userStop == m.s.gate.userStop && y.s.gate.inflightSeq == m.s.gate.inflightSeq
    requires forall id | OnTheWay(y, id) :: OnTheWay(m, id)
    ensures Muzzled(y)
  {
    assert forall r :: ParkedReason(m.s.gate, r) ==> ParkedReason(y.s.gate, r);
  }

  lemma HandledKeepsGate(s: Session, ev: Event, calls: seq<CallId>)
    requires !Abortable(s.turns)
    ensures var t := Handled(s, ev, calls);
            t.sync == s.sync && t.index == s.index && t.gate == s.gate && !Abortable(t.turns)
  {
    if ev.EvModelError? {
      ErrorKeepsGate(s, ev.code);
    } else if ev.EvRunExit? {
      ExitKeepsGate(s, ev.gen, ev.failed);
    }
  }

  lemma ErrorKeepsGate(s: Session, code: nat)
    requires !Abortable(s.turns)
    ensures var t := HandledError(s, code);
            t.sync == s.sync && t.index == s.index && t.gate == s.gate && !Abortable(t.turns)
  {
  }

  lemma ExitKeepsGate(s: Session, gen: nat, failed: Option<nat>)
    requires !Abortable(s.turns)
    ensures var t := HandledExit(s, gen, failed);
            t.sync == s.sync && t.index == s.index && t.gate == s.gate && !Abortable(t.turns)
  {
  }

  lemma EvaluatedKeepsQuiet(s: Session)
    requires !Abortable(s.turns)
    ensures var (t, steers) := Evaluated(s);
            t == s.(turns := t.turns) && steers == [] && !Abortable(t.turns)
  {
  }

  lemma ActorMuzzled(m: Machine, step: Step)
    requires Muzzled(m) && Enabled(m, step) && (step.Pop? || step.Evaluate? || step.SubmitNext?)
    ensures Muzzled(After(m, step)) && After(m, step).s.gate.providerCalls == m.s.gate.providerCalls
  {
    if step.Pop? {
      HandledKeepsGate(m.s.(events := m.s.events[1..]), m.s.events[0], step.calls);
    } else if step.Evaluate? {
      EvaluatedKeepsQuiet(m.s);
    } else {
      assert m.actor.steers[0] in m.actor.steers;
    }
    QuietMuzzled(m, After(m, step));
  }

  lemma SubmitPromptMuzzled(m: Machine, id: InputId, ok: bool)
    requires Muzzled(m) && id in m.transit
    ensures Muzzled(SubmittedPrompt(m, id, ok))
    ensures SubmittedPrompt(m, id, ok).s.gate == m.s.gate
  {
    assert OnTheWay(m, id);
    QuietMuzzled(m, SubmittedPrompt(m, id, ok));
  }

  lemma ClientMuzzled(m: Machine, step: Step)
    requires Muzzled(m) && Enabled(m, step) && (step.Mark? || step.Abort? || step.Steer? || step.SubmitSteer?)
    ensures Muzzled(After(m, step)) && After(m, step).s.gate == m.s.gate
  {
    if step.SubmitSteer? {
      assert OnTheWay(m, step.id);
    }
    QuietMuzzled(m, After(m, step));
  }

  lemma OpsMuzzled(m: Machine, step: Step)
    requires Muzzled(m) && Enabled(m, step)
    requires step.Permit? || step.AddOp? || step.DoAction? || step.PumpOp? || step.Deliver? || step.CancelNext? ||
             step.EndAbort?
    ensures Muzzled(After(m, step)) && After(m, step).s.gate == m.s.gate
  {
    QuietMuzzled(m, After(m, step));
  }

  lemma EndMuzzled(m: Machine, r: InnerResult)
    requires Muzzled(m)
    ensures Muzzled(RequestEnded(m, r)) && RequestEnded(m, r).s.gate.providerCalls == m.s.gate.providerCalls
  {
    EndForgets(m.s.gate, m.s.gate.inflightSeq, r);
    QuietMuzzled(m, RequestEnded(m, r));
  }

  lemma StreamKeepsMarks(g: GateState, d: Delta)
    ensures var y := Observe(g, d);
            y == g.(partial := y.partial, partialAttempt := y.partialAttempt, served := y.served, created := y.created)
  {
    match d.kind
    case Text(_) =>
    case Served(_) =>
    case Created(_) =>
    case _ =>
  }

  lemma RequestMuzzled(m: Machine, step: Step)
    requires Muzzled(m) && Enabled(m, step) && (step.Stream? || step.Exit? || step.Fire?)
    ensures Muzzled(After(m, step)) && After(m, step).s.gate.providerCalls == m.s.gate.providerCalls
  {
    if step.Stream? {
      StreamKeepsMarks(m.s.gate, step.delta);
    }
    QuietMuzzled(m, After(m, step));
  }

  lemma StepMuzzled(m: Machine, step: Step)
    requires Muzzled(m) && Enabled(m, step) && !step.Prompt?
    ensures Muzzled(After(m, step)) && After(m, step).s.gate.providerCalls == m.s.gate.providerCalls
  {
    match step
    case Persist =>
      assert OnTheWay(m, m.inbox[0]);
      var m1 := m.(inbox := m.inbox[1..]);
      QuietMuzzled(m, m1);
      AppendMuzzled(m1, Input(m.inbox[0], External));
    case AppendItem(item) => AppendMuzzled(m, item);
    case StartTurn(turnId, mutedId) => StartMuted(m, turnId, mutedId);
    case SubmitPrompt(id, ok) => SubmitPromptMuzzled(m, id, ok);
    case Mark => ClientMuzzled(m, step);
    case Abort(_) => ClientMuzzled(m, step);
    case Steer(_, _) => ClientMuzzled(m, step);
    case SubmitSteer(_) => ClientMuzzled(m, step);
    case Pop(_, _) => ActorMuzzled(m, step);
    case Evaluate => ActorMuzzled(m, step);
    case SubmitNext => ActorMuzzled(m, step);
    case Stream(_) => RequestMuzzled(m, step);
    case EndRequest(r) => EndMuzzled(m, r);
    case Exit(_) => RequestMuzzled(m, step);
    case Fire(_) => RequestMuzzled(m, step);
    case _ => OpsMuzzled(m, step);
  }

  predicate NoPrompt(steps: seq<Step>) {
    forall i | 0 <= i < |steps| :: !steps[i].Prompt?
  }

  /** However the session goes on, short of a prompt, no request reaches the provider. */
  lemma {:induction false} MuzzledForGood(m: Machine, steps: seq<Step>)
    requires Muzzled(m) && Run(m, steps) && NoPrompt(steps)
    ensures Muzzled(Final(m, steps))
    ensures Final(m, steps).s.gate.providerCalls == m.s.gate.providerCalls
    decreases |steps|
  {
    if steps != [] {
      StepMuzzled(m, steps[0]);
      MuzzledForGood(After(m, steps[0]), steps[1..]);
    }
  }

  /** abortTurn muzzles the session if every submission under way is covered. */
  lemma AbortMuzzles(m: Machine, ids: seq<OpId>)
    requires Abortable(m.s.turns) && Known(m.s) && Covered(m)
    ensures Muzzled(After(m, Abort(ids)))
    ensures After(m, Abort(ids)).s.gate.providerCalls == m.s.gate.providerCalls
  {
    var y := After(m, Abort(ids));
    assert forall i | 0 <= i < |m.s.sync.reasons| && m.s.sync.reasons[i].CallReason? ::
        m.s.sync.reasons[i].call in m.s.sync.PendingCalls();
    forall id | OnTheWay(y, id)
      ensures id in y.s.gate.parkedInputs
    {
      assert OnTheWay(m, id);
    }
  }

  // ---- the lookups know what waits ----

  lemma StepKnown(m: Machine, step: Step)
    requires Known(m.s) && Enabled(m, step)
    ensures Known(After(m, step).s)
  {
    if step.Persist? {
      AppendKnown(m.s, Input(m.inbox[0], External));
    } else if step.AppendItem? {
      AppendKnown(m.s, step.item);
    } else if step.StartTurn? {
      AppendKnown(m.s, Turn(step.turnId));
    } else {
      RecordsKept(m, step);
    }
  }

  lemma {:induction false} OpenedKnown(log: seq<Item>)
    requires SensibleLog(log)
    ensures Known(Opened(log).s)
  {
    if log != [] {
      var before := log[..|log| - 1];
      OpenedKnown(before);
      AppendKnown(Opened(before).s, log[|log| - 1]);
    }
  }

  lemma {:induction false} RunKnown(m: Machine, steps: seq<Step>)
    requires Known(m.s) && Run(m, steps)
    ensures Known(Final(m, steps).s)
    decreases |steps|
  {
    if steps != [] {
      StepKnown(m, steps[0]);
      RunKnown(After(m, steps[0]), steps[1..]);
    }
  }

  lemma ReachedKnown(log: seq<Item>, m: Machine)
    requires SensibleLog(log) && Reaches(Opened(log), m)
    ensures Known(m.s)
  {
    OpenedKnown(log);
    var steps :| Run(Opened(log), steps) && m == Final(Opened(log), steps);
    RunKnown(Opened(log), steps);
  }

  // ---- the property ----

  /** No request reaches the provider, however the session goes on short of a prompt. */
  ghost predicate Silent(m: Machine) {
    forall steps | Run(m, steps) && NoPrompt(steps) ::
      Final(m, steps).s.gate.providerCalls == m.s.gate.providerCalls
  }

  /** Cancel is final whenever it is covered: in every run of the session from any log, an abort
      whose turn owns all submissions under way is followed by no request to the provider before
      the next prompt. */
  lemma CancelIsFinal(log: seq<Item>, m: Machine, ids: seq<OpId>)
    requires SensibleLog(log) && Reaches(Opened(log), m)
    requires Abortable(m.s.turns) && Covered(m)
    ensures Silent(After(m, Abort(ids)))
  {
    ReachedKnown(log, m);
    AbortMuzzles(m, ids);
    var y := After(m, Abort(ids));
    forall steps | Run(y, steps) && NoPrompt(steps)
      ensures Final(y, steps).s.gate.providerCalls == y.s.gate.providerCalls
    {
      MuzzledForGood(y, steps);
    }
  }
}
