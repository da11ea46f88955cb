/** One session under every interleaving: client calls, the actor, timers, the coordinator, its
    model requests and the operation manager. */
module SessionRuns {
  import opened Harness
  import opened Mirrors
  import opened Gates
  import opened Ops
  import opened Projection
  import opened SessionSteps

  /** A goroutine on its way from a locked section to the inbox. */
  datatype Carrier = FromPrompt(turn: nat) | FromSteer(gen: nat)

  datatype Actor = Resting | MustEvaluate | Submitting(gen: nat, steers: seq<InputId>) | Aborting

  /** An abort past its locked section: the operations it has yet to cancel, and whether the actor
      runs it or a client call does. */
  datatype Canceller = Canceller(turn: nat, ids: seq<OpId>, reason: string, byActor: bool)

  datatype Machine = Machine(
    s: Session,
    log: seq<Item>,                      // what the store holds
    applied: nat,                        // how much of it the actor has handled
    inbox: seq<InputId>,                 // submitted, not yet persisted
    transit: map<InputId, Carrier>,      // taken from the client, not yet submitted
    actor: Actor,
    todo: seq<Action>,                   // unlocked halves of operation manager calls
    aborts: seq<Canceller>,              // aborts between their locked section and their end
    live: Option<nat>,                   // the generation whose coordinator runs
    gens: nat,
    used: set<InputId>,                  // every input id ever made
    accepted: seq<set<InputId>>,         // per turn: its prompt and the steers it took
    submitted: seq<InputId>,             // every input that reached an inbox
    issued: set<TurnId>)                 // the turn ids made so far

  /** Each locked section, and each actor event, is one step; what a goroutine does between two
      locked sections is in between steps. */
  datatype Step =
    // client calls
    | Prompt(id: InputId)
    | SubmitPrompt(id: InputId, ok: bool)
    | Mark
    | Abort(ids: seq<OpId>)
    | CancelNext(task: nat)
    | EndAbort(task: nat)
    | Steer(id: InputId, interrupt: bool)
    | SubmitSteer(id: InputId)
    | Permit(held: OpId, allow: bool, always: bool)
    // the actor and its timers
    | Pop(ids: seq<OpId>, calls: seq<CallId>)
    | Evaluate
    | SubmitNext
    | Fire(timer: TurnTimer)
    // the coordinator
    | Persist
    | AppendItem(item: Item)
    | StartTurn(turnId: TurnId, mutedId: ResponseId)
    | Stream(delta: Delta)
    | EndRequest(r: InnerResult)
    | Exit(failed: Option<nat>)
    // the operation manager
    | AddOp(op: Operation, mode: PermissionMode)
    | DoAction(i: nat, accepted: bool)
    | PumpOp(op: Operation)
    | Deliver

  /** Names are used as the harness uses them: a response's calls are new, a status is about a
      call some response made, an operation belongs to one call, and there are no heartbeats. */
  predicate Sensible(ix: Index, item: Item) {
    match item
    case Input(_, kind) => kind != Heartbeat
    case ModelResponse(_, response) => CallIds(response.output) !! ix.calls && NO_ID !in CallIds(response.output)
    case CallStatus(status) =>
      status.callId in ix.calls &&
      forall op | op in OpIds(status.operations) && op in ix.opCall :: ix.opCall[op] == status.callId
    case _ => true
  }

  /** An item a coordinator may append by itself. */
  predicate Plausible(s: Session, item: Item) {
    Sensible(s.index, item) && !item.Turn? && (item.Input? ==> item.kind == OtherControl)
  }

  /** The coordinator is an environment: it may append any item whose names are known, start a
      request whenever none is in flight and there is something to answer, and die at any time. */
  ghost predicate Enabled(m: Machine, step: Step) {
    match step
    case Prompt(id) => m.s.turns.current.None? && (id in m.s.index.inputs || id !in m.used)
    case SubmitPrompt(id, _) => id in m.transit && m.transit[id].FromPrompt?
    case Mark => true
    case Abort(ids) => Abortable(m.s.turns) ==> Enumerates(ids, m.s)
    case Steer(id, _) => id !in m.used
    case SubmitSteer(id) => id in m.transit && m.transit[id].FromSteer?
    case CancelNext(i) => i < |m.aborts| && m.aborts[i].ids != []
    case EndAbort(i) => i < |m.aborts| && m.aborts[i].ids == []
    case Permit(_, _, _) => true
    case Pop(ids, calls) => m.actor.Resting? && m.s.events != [] && Orders(m.s, m.s.events[0], ids, calls)
    case Evaluate => m.actor.MustEvaluate?
    case SubmitNext => m.actor.Submitting? && m.actor.steers != []
    case Fire(timer) => timer in m.s.timers
    case Persist => m.live.Some? && m.inbox != []
    case AppendItem(item) => m.live.Some? && Plausible(m.s, item) && (item.Input? ==> item.id !in m.used)
    case StartTurn(turnId, _) =>
      m.live.Some? && !m.s.gate.inflight && turnId != NO_ID && turnId !in m.issued &&
      (m.s.sync.reasons != [] || m.s.sync.inflight)
    case Stream(delta) => delta.seqNo <= m.s.gate.seqNo
    case EndRequest(_) => m.s.gate.inflight
    case Exit(_) => m.live.Some?
    case AddOp(op, _) => op.id in m.s.index.opCall
    case DoAction(i, _) => i < |m.todo|
    case PumpOp(op) => op.id in m.s.ops.inner
    case Deliver => true
  }

  /** The coordinator appends an item; observers run before the append returns. */
  function Append(m: Machine, item: Item): Machine {
    m.(log := m.log + [item], s := Observed(m.s, item))
  }

  function Mine(m: Machine, id: InputId): Machine {
    var k := m.s.turns.current;
    m.(used := m.used + {id},
    accepted := if k.Some? && k.value < |m.accepted|
                then m.accepted[k.value := m.accepted[k.value] + {id}] else m.accepted)
  }

  function TakePrompt(m: Machine, id: InputId): Machine {
    var (s, k) := Prompted(m.s, id);
    if k.None? then m
    else m.(s := s, transit := m.transit[id := FromPrompt(k.value)], used := m.used + {id},
         accepted := m.accepted + [{id}])
  }

  /** A submission reaches the inbox of a generation that still runs; otherwise it is lost. */
  function Submit(m: Machine, gen: nat, id: InputId): Machine {
    if m.live == Some(gen) then m.(inbox := m.inbox + [id], submitted := m.submitted + [id]) else m
  }

  /** ensureGeneration. */
  function Ensure(m: Machine): Machine {
    if m.s.gen.Some? then m
    else m.(s := m.s.(gen := Some(m.gens)), live := Some(m.gens), gens := m.gens + 1, inbox := [])
  }

  function SubmittedPrompt(m: Machine, id: InputId, ok: bool): Machine {
    if id !in m.transit || !m.transit[id].FromPrompt? then m
    else
      var m1 := m.(transit := m.transit - {id});
      if !ok then
        m1.(s := m.s.(turns := m.s.turns.Finish(m.transit[id].turn, TurnResult(None, Some(SubmitFailed), false))))
      else
        var m2 := Ensure(m1);
        if m2.s.gen.Some? then Submit(m2, m2.s.gen.value, id) else m2
  }

  function TakeSteer(m: Machine, id: InputId, interrupt: bool): Machine {
    var (s, a) := Steered(m.s, id, interrupt);
    match a
    case Refused => m.(s := s, used := m.used + {id})
    case Queued => Mine(m.(s := s), id)
    case Interrupting(gen) =>
      var m1 := Mine(m.(s := s), id);
      if m.live == Some(gen) then m1.(transit := m1.transit[id := FromSteer(gen)]) else m1
  }

  function SubmittedSteer(m: Machine, id: InputId): Machine {
    if id !in m.transit || !m.transit[id].FromSteer? then m
    else Submit(m.(transit := m.transit - {id}), m.transit[id].gen, id)
  }

  /** askPermission's answer: the standing choices, then Decide's locked section. */
  function Permitted(m: Machine, op: OpId, allow: bool, always: bool): Machine {
    var s := m.s.(alwaysAllow := m.s.alwaysAllow || (allow && always),
               alwaysReject := m.s.alwaysReject || (!allow && always));
    var (ops, a) := DecideLocked(s.ops, op, allow, "rejected");
    m.(s := s.(ops := ops), todo := if a.Nothing? then m.todo else m.todo + [a])
  }

  /** abortTurn's locked section; its calls of ops.Cancel are still to come. */
  function StartedAbort(m: Machine, ids: seq<OpId>): Machine {
    if !Abortable(m.s.turns) then m
    else
      var task := Canceller(m.s.turns.current.value, ids, AbortReason(m.s.turns.Now().value), false);
      m.(s := AbortMarks(m.s), aborts := m.aborts + [task])
  }

  function CancelledNext(m: Machine, i: nat): Machine {
    if i >= |m.aborts| || m.aborts[i].ids == [] then m
    else
      var task := m.aborts[i];
      m.(s := WithOps(m.s, CancelNow(m.s.ops, task.ids[0], task.reason)),
      aborts := m.aborts[i := task.(ids := task.ids[1..])])
  }

  function EndedAbort(m: Machine, i: nat): Machine {
    if i >= |m.aborts| || m.aborts[i].ids != [] then m
    else
      m.(s := AbortEnds(m.s, m.aborts[i].turn), aborts := m.aborts[..i] + m.aborts[i + 1..],
      actor := if m.aborts[i].byActor then MustEvaluate else m.actor)
  }

  function Popped(m: Machine, ids: seq<OpId>, calls: seq<CallId>): Machine {
    if m.s.events == [] then m
    else
      var ev, s := m.s.events[0], m.s.(events := m.s.events[1..]);
      var y := m.(s := Handled(s, ev, calls), applied := if ev.EvItem? then m.applied + 1 else m.applied);
      if ev.EvModelError? && ErrorAborts(s) then
        var task := Canceller(s.turns.current.value, ids, AbortReason(s.turns.Now().value), true);
        y.(actor := Aborting, aborts := m.aborts + [task])
      else y.(actor := MustEvaluate)
  }

  function EvaluatedStep(m: Machine): Machine {
    var (s, steers) := Evaluated(m.s);
    m.(s := s, actor := if steers != [] && m.s.gen.Some? && m.live == m.s.gen
                        then Submitting(m.s.gen.value, steers) else Resting)
  }

  function SubmittedNext(m: Machine): Machine {
    if !m.actor.Submitting? || m.actor.steers == [] then m
    else
      var rest := m.actor.steers[1..];
      Submit(m, m.actor.gen, m.actor.steers[0])
      .(actor := if rest == [] then Resting else Submitting(m.actor.gen, rest))
  }

  function Fired(m: Machine, timer: TurnTimer): Machine {
    m.(s := m.s.(timers := m.s.timers - {timer},
              events := m.s.events + [match timer
                                      case GraceTimer(k) => EvCancelGrace(k)
                                      case FlushTimer(k) => EvCancelFlush(k)]))
  }

  function Started(m: Machine, turnId: TurnId, mutedId: ResponseId): Machine {
    var m1 := Append(m, Turn(turnId)).(issued := m.issued + {turnId});
    m1.(s := m1.s.(gate := Begin(m1.s.gate, m1.s.sync.turnReasons, mutedId).0))
  }

  function RequestEnded(m: Machine, r: InnerResult): Machine {
    var (g, reply) := End(m.s.gate, m.s.gate.inflightSeq, r);
    m.(s := m.s.(gate := g, events := m.s.events +
      if reply.Reply? && reply.outcome == Errored then [EvModelError(r.model)] else []))
  }

  /** The coordinator's run ends, and with it everything on its way into its inbox. */
  function Exited(m: Machine, failed: Option<nat>): Machine {
    if m.live.None? then m
    else
      m.(s := m.s.(events := m.s.events + [EvRunExit(m.live.value, failed)]),
      live := None, inbox := [],
      transit := map id | id in m.transit && m.transit[id].FromPrompt? :: m.transit[id],
      actor := if m.actor.Submitting? then Resting else m.actor)
  }

  function Added(m: Machine, op: Operation, mode: PermissionMode): Machine {
    var (ops, a) := AddLocked(m.s.ops, op, Policy(m.s, mode, op), "not allowed", true);
    m.(s := m.s.(ops := ops,
              events := m.s.events + if |ops.asked| > |m.s.ops.asked| then [EvPermission(op)] else []),
    todo := if a.Nothing? then m.todo else m.todo + [a])
  }

  function Done(m: Machine, i: nat, accepted: bool): Machine {
    if i >= |m.todo| then m
    else m.(s := WithOps(m.s, Perform(m.s.ops, m.todo[i], accepted, true)), todo := m.todo[..i] + m.todo[i + 1..])
  }

  function After(m: Machine, step: Step): Machine {
    match step
    case Prompt(id) => TakePrompt(m, id)
    case SubmitPrompt(id, ok) => SubmittedPrompt(m, id, ok)
    case Mark => m.(s := MarkCancelled(m.s))
    case Abort(ids) => StartedAbort(m, ids)
    case CancelNext(i) => CancelledNext(m, i)
    case EndAbort(i) => EndedAbort(m, i)
    case Steer(id, interrupt) => TakeSteer(m, id, interrupt)
    case SubmitSteer(id) => SubmittedSteer(m, id)
    case Permit(op, allow, always) => Permitted(m, op, allow, always)
    case Pop(ids, calls) => Popped(m, ids, calls)
    case Evaluate => EvaluatedStep(m)
    case SubmitNext => SubmittedNext(m)
    case Fire(timer) => Fired(m, timer)
    case Persist => if m.inbox == [] then m else Append(m.(inbox := m.inbox[1..]), Input(m.inbox[0], External))
    case AppendItem(item) => Append(m.(used := if item.Input? then m.used + {item.id} else m.used), item)
    case StartTurn(turnId, mutedId) => Started(m, turnId, mutedId)
    case Stream(delta) =>
      m.(s := m.s.(gate := Observe(m.s.gate, delta), events := m.s.events + [EvDelta(delta)]))
    case EndRequest(r) => RequestEnded(m, r)
    case Exit(failed) => Exited(m, failed)
    case AddOp(op, mode) => Added(m, op, mode)
    case DoAction(i, accepted) => Done(m, i, accepted)
    case PumpOp(op) => m.(s := WithOps(m.s, Emit(m.s.ops, op)))
    case Deliver => m.(s := m.s.(ops := Feed(m.s.ops)))
  }

  ghost predicate Run(m: Machine, steps: seq<Step>)
    decreases |steps|
  {
    steps == [] || (Enabled(m, steps[0]) && Run(After(m, steps[0]), steps[1..]))
  }

  function Final(m: Machine, steps: seq<Step>): Machine
    decreases |steps|
  {
    if steps == [] then m else Final(After(m, steps[0]), steps[1..])
  }

  /** A log some earlier run may have left. */
  predicate SensibleLog(log: seq<Item>) {
    log == [] ||
    (SensibleLog(log[..|log| - 1]) &&
     Sensible(IndexAll(NO_INDEX, log[..|log| - 1]), log[|log| - 1]))
  }

  function TurnIds(log: seq<Item>): set<TurnId> {
    set i | 0 <= i < |log| && log[i].Turn? :: log[i].turnId
  }

  function Opened(log: seq<Item>): Machine {
    var s := Reopened(log);
    Machine(s, log, |log|, [], map[], Resting, [], [], None, 0, s.index.inputs, [], [], TurnIds(log))
  }

  /** Some run leads from `a` to `b`. */
  ghost predicate Reaches(a: Machine, b: Machine) {
    exists steps :: Run(a, steps) && b == Final(a, steps)
  }

  // ---- composing runs ----

  lemma {:induction false} RunsJoin(m: Machine, a: seq<Step>, b: seq<Step>)
    requires Run(m, a) && Run(Final(m, a), b)
    ensures Run(m, a + b) && Final(m, a + b) == Final(Final(m, a), b)
    decreases |a|
  {
    if a == [] {
      assert a + b == b;
    } else {
      assert (a + b)[0] == a[0] && (a + b)[1..] == a[1..] + b;
      RunsJoin(After(m, a[0]), a[1..], b);
    }
  }

  lemma RunOne(m: Machine, step: Step)
    requires Enabled(m, step)
    ensures Run(m, [step]) && Final(m, [step]) == After(m, step)
  {
    assert [step][1..] == [];
    assert Run(After(m, step), []);
  }

  lemma RunFirst(m: Machine, step: Step, rest: seq<Step>)
    requires Enabled(m, step) && Run(After(m, step), rest)
    ensures Run(m, [step] + rest) && Final(m, [step] + rest) == Final(After(m, step), rest)
  {
    assert ([step] + rest)[1..] == rest;
  }

  // ---- an abort undisturbed ----

  lemma {:induction false} CancelsInARow(m: Machine, i: nat)
    requires i < |m.aborts|
    ensures var steps := seq(|m.aborts[i].ids|, _ => CancelNext(i));
            && Run(m, steps)
            && Final(m, steps) == m.(s := CancelFirst(m.s, m.aborts[i].ids, m.aborts[i].reason),
                                     aborts := m.aborts[i := m.aborts[i].(ids := [])])
    decreases |m.aborts[i].ids|
  {
    var steps := seq(|m.aborts[i].ids|, _ => CancelNext(i));
    if m.aborts[i].ids == [] {
      assert m.aborts[i := m.aborts[i].(ids := [])] == m.aborts;
    } else {
      var y := CancelledNext(m, i);
      CancelsInARow(y, i);
      assert steps[1..] == seq(|y.aborts[i].ids|, _ => CancelNext(i));
      assert y.aborts[i := y.aborts[i].(ids := [])] == m.aborts[i := m.aborts[i].(ids := [])];
    }
  }

  /** ops.Cancel for each operation, first to last. */
  function CancelFirst(s: Session, ids: seq<OpId>, reason: string): Session
    decreases |ids|
  {
    if ids == [] then s else CancelFirst(WithOps(s, CancelNow(s.ops, ids[0], reason)), ids[1..], reason)
  }

  lemma {:induction false} CancelFirstIsCancelOps(s: Session, ids: seq<OpId>, reason: string)
    ensures CancelFirst(s, ids, reason) == CancelOps(s, ids, reason)
    decreases |ids|
  {
    if |ids| == 1 {
      assert ids[1..] == [] && ids[..0] == [];
    } else if ids != [] {
      var last := |ids| - 1;
      var s1 := WithOps(s, CancelNow(s.ops, ids[0], reason));
      CancelFirstIsCancelOps(s1, ids[1..], reason);
      assert ids[1..][..last - 1] == ids[..last][1..];
      CancelFirstIsCancelOps(s, ids[..last], reason);
      CancelFirstIsCancelOps(s1, ids[..last][1..], reason);
    }
  }

  /** With nothing in between, the steps of an abort are abortTurn as one call: the marks, the
      cancellations in order, the wake and the timer. */
  lemma UndisturbedAbort(m: Machine, ids: seq<OpId>)
    requires Abortable(m.s.turns) && Enumerates(ids, m.s)
    ensures var steps := [Abort(ids)] + seq(|ids|, _ => CancelNext(|m.aborts|)) + [EndAbort(|m.aborts|)];
            Run(m, steps) && Final(m, steps) == m.(s := Aborted(m.s, ids))
  {
    var i := |m.aborts|;
    var m1 := StartedAbort(m, ids);
    var cancels := seq(|ids|, _ => CancelNext(i));
    CancelsInARow(m1, i);
    CancelFirstIsCancelOps(m1.s, ids, m1.aborts[i].reason);
    var m2 := Final(m1, cancels);
    RunFirst(m, Abort(ids), cancels);
    RunOne(m2, EndAbort(i));
    RunsJoin(m, [Abort(ids)] + cancels, [EndAbort(i)]);
    assert m2.aborts[..i] + m2.aborts[i + 1..] == m.aborts;
  }

  // ---- what only appending changes ----

  predicate Appends(step: Step) {
    step.Persist? || step.AppendItem? || step.StartTurn?
  }

  predicate SameRecords(m: Machine, y: Machine) {
    y.log == m.log && y.s.sync == m.s.sync && y.s.index.inputs == m.s.index.inputs &&
    y.s.index.calls == m.s.index.calls && y.s.index.opCall == m.s.index.opCall
  }

  /** Items in `after` were in `before`. */
  predicate NoNewItems(before: seq<Event>, after: seq<Event>) {
    forall i | 0 <= i < |after| && after[i].EvItem? :: after[i] in before
  }

  predicate NothingAppended(m: Machine, y: Machine) {
    SameRecords(m, y) && NoNewItems(m.s.events, y.s.events)
  }

  lemma HandledKeepsRecords(s: Session, ev: Event, calls: seq<CallId>)
    ensures var y := Handled(s, ev, calls);
            && y.sync == s.sync && y.gen == (if ev.EvRunExit? && s.gen == Some(ev.gen) then None else s.gen)
            && y.ops == s.ops && y.events == s.events
            && y.index == s.index.(refuseNew := y.index.refuseNew, cancelledCalls := y.index.cancelledCalls)
  {
  }

  lemma ClientAppendsNothing(m: Machine, step: Step)
    requires step.Prompt? || step.Mark? || step.Steer?
    ensures NothingAppended(m, After(m, step))
  {
  }

  lemma SubmissionAppendsNothing(m: Machine, step: Step)
    requires step.SubmitPrompt? || step.SubmitSteer? || step.SubmitNext?
    ensures NothingAppended(m, After(m, step))
  {
  }

  lemma AbortAppendsNothing(m: Machine, step: Step)
    requires step.Abort? || step.CancelNext? || step.EndAbort?
    ensures NothingAppended(m, After(m, step))
  {
  }

  lemma ActionAppendsNothing(m: Machine, i: nat, accepted: bool)
    ensures NothingAppended(m, Done(m, i, accepted))
  {
  }

  lemma OthersAppendNothing(m: Machine, step: Step)
    requires step.Permit? || step.Fire? || step.Stream? || step.EndRequest? ||
             step.AddOp? || step.DoAction? || step.PumpOp? || step.Deliver?
    ensures NothingAppended(m, After(m, step))
  {
    if step.DoAction? {
      ActionAppendsNothing(m, step.i, step.accepted);
    }
  }

  /** Only an append changes the log, the appended-to mirror, or the lookups, and posts an item. */
  lemma RecordsKept(m: Machine, step: Step)
    requires !Appends(step)
    ensures NothingAppended(m, After(m, step))
  {
    if step.Pop? {
      if m.s.events != [] {
        HandledKeepsRecords(m.s.(events := m.s.events[1..]), m.s.events[0], step.calls);
        assert forall ev | ev in m.s.events[1..] :: ev in m.s.events;
      }
    } else if step.Prompt? || step.Mark? || step.Steer? {
      ClientAppendsNothing(m, step);
    } else if step.SubmitPrompt? || step.SubmitSteer? || step.SubmitNext? {
      SubmissionAppendsNothing(m, step);
    } else if step.Abort? || step.CancelNext? || step.EndAbort? {
      AbortAppendsNothing(m, step);
    } else if !step.Evaluate? && !step.Exit? {
      OthersAppendNothing(m, step);
    }
  }
}
