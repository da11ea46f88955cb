/** The coordinator the mirror cannot see, by the rules of the mirror's package comment. */
module Coordinators {
  import opened Harness
  import opened Mirrors

  /** Its own bookkeeping is richer than the items it persists, and of operations that no call waits
      for those items say nothing. */
  datatype Coordinator = Coordinator(
    waiting: seq<Reason>,               // inputs and finished calls not yet given to the model
    delivering: seq<Reason>,            // what the newest request carries
    request: Option<TurnId>,            // the model call in flight
    newest: TurnId,
    issued: set<TurnId>,
    calls: map<CallId, seq<OpId>>,      // running calls and the operations each waits for
    operations: map<OpId, Operation>)   // the live operation table; saving it fires no observer
  {
    /** isIdle: no model call, no pending inputs, no tool calls, no nonterminal operations. */
    predicate Idle() {
      request.None? && waiting == [] && calls == map[] && forall op | op in operations :: !Runs(op)
    }

    /** Operation `op` has not ended. */
    predicate Runs(op: OpId) {
      op in operations && !operations[op].status.Terminal()
    }

    /** Some running call waits for `op`. */
    predicate Awaited(op: OpId) {
      exists c | c in calls :: op in calls[c]
    }

    /** Every operation that runs is waited for by a running call. */
    predicate NoOrphans() {
      forall op | op in operations && Runs(op) :: Awaited(op)
    }

    /** Idle but for operations that run although no running call waits for them. */
    predicate IdleButOrphans() {
      request.None? && waiting == [] && calls == map[] && forall op | op in operations && Runs(op) :: !Awaited(op)
    }

    /** Every operation `ops` names has ended according to the live table. */
    predicate Done(ops: seq<OpId>) {
      forall i | 0 <= i < |ops| :: ops[i] in operations && operations[ops[i]].status.Terminal()
    }

    function Table(ops: seq<OpId>): seq<Operation> {
      if ops == [] then []
      else Table(ops[..|ops| - 1]) +
           if ops[|ops| - 1] in operations then [operations[ops[|ops| - 1]]] else []
    }
  }

  const FRESH := Coordinator([], [], None, NO_ID, {}, map[], map[])

  datatype Step =
    | Accept(id: InputId, kind: InputKind)
    | Start(turnId: TurnId)                         // a new request, or one superseding another
    | Deliver(response: Response)                   // the request in force answers
    | Late(superseded: TurnId, stale: Response)     // a superseded request answers anyway
    | Update(op: Operation)                         // an operation moves; nothing is appended
    | Report(callId: CallId, error: bool, waitingFor: seq<OpId>)
    | ForkSession

  predicate Enabled(c: Coordinator, s: Step) {
    match s
    case Accept(_, _) => true
    case Start(turnId) => (c.waiting != [] || c.request.Some?) && turnId != NO_ID && turnId !in c.issued
    case Deliver(_) => c.request.Some?
    case Late(superseded, _) => superseded in c.issued && superseded != c.newest
    case Update(_) => true
    case Report(callId, _, _) => callId in c.calls
    case ForkSession => true
  }

  /** What the coordinator persists with a status: its table's snapshots of the waits. */
  function StatusOf(c: Coordinator, s: Step): ToolCallStatus
    requires s.Report?
  {
    ToolCallStatus(s.callId, s.error, s.waitingFor, c.Table(s.waitingFor))
  }

  function After(c: Coordinator, s: Step): Coordinator {
    match s
    case Accept(id, External) => c.(waiting := c.waiting + [InputReason(id)])
    case Accept(id, Heartbeat) => c.(waiting := c.waiting + [HeartbeatReason(id)])
    case Accept(_, OtherControl) => c
    case Start(turnId) =>
      c.(delivering := c.waiting, waiting := [], request := Some(turnId), newest := turnId,
      issued := c.issued + {turnId})
    case Deliver(response) =>
      c.(delivering := [], request := None, calls := StartCalls(c.calls, response.output))
    case Late(_, _) => c
    case Update(op) => c.(operations := c.operations[op.id := op])
    case Report(callId, error, waitingFor) =>
      if error || c.Done(waitingFor)
      then c.(calls := c.calls - {callId}, waiting := c.waiting + [CallReason(callId)])
      else c.(calls := c.calls[callId := waitingFor])
    case ForkSession => c.(calls := map[])
  }

  function Appended(c: Coordinator, s: Step): seq<Item> {
    match s
    case Accept(id, kind) => [Input(id, kind)]
    case Start(turnId) => [Turn(turnId)]
    case Deliver(response) => [ModelResponse(c.newest, response)]
    case Late(superseded, stale) => [ModelResponse(superseded, stale)]
    case Update(_) => []
    case Report(_, _, _) => [CallStatus(StatusOf(c, s))]
    case ForkSession => [Fork]
  }

  predicate Run(c: Coordinator, steps: seq<Step>)
    decreases |steps|
  {
    steps == [] || (Enabled(c, steps[0]) && Run(After(c, steps[0]), steps[1..]))
  }

  function Final(c: Coordinator, steps: seq<Step>): Coordinator
    decreases |steps|
  {
    if steps == [] then c else Final(After(c, steps[0]), steps[1..])
  }

  function Log(c: Coordinator, steps: seq<Step>): seq<Item>
    decreases |steps|
  {
    if steps == [] then [] else Appended(c, steps[0]) + Log(After(c, steps[0]), steps[1..])
  }

  /** The mirror `m` sees the coordinator `c` truly. */
  predicate Agrees(c: Coordinator, m: MirrorState) {
    && m.reasons == c.waiting
    && m.pending == |c.waiting|
    && m.lastTurn == c.newest
    && m.inflight == c.request.Some?
    && m.outstanding == c.calls
    && (c.request.Some? ==> c.request == Some(c.newest) && m.turnReasons == c.delivering)
    && (c.newest == NO_ID <==> c.issued == {})
    && (c.newest != NO_ID ==> c.newest in c.issued)
    && NO_ID !in c.issued
  }

  /** The persisted snapshots decide "all ended" exactly as the live table does. */
  lemma {:induction false} TableReportsStatus(c: Coordinator, ops: seq<OpId>, id: OpId)
    requires forall op | op in c.operations :: c.operations[op].id == op
    ensures LastStatus(c.Table(ops), id) ==
            if id in ops && id in c.operations then c.operations[id].status else Unset
  {
    if ops != [] {
      var before, last := ops[..|ops| - 1], ops[|ops| - 1];
      TableReportsStatus(c, before, id);
      assert ops == before + [last];
      if last in c.operations {
        assert c.Table(ops) == c.Table(before) + [c.operations[last]];
        LastStatusAppend(c.Table(before), c.operations[last], id);
      } else {
        assert c.Table(ops) == c.Table(before);
      }
    }
  }

  lemma LastStatusAppend(operations: seq<Operation>, last: Operation, id: OpId)
    ensures LastStatus(operations + [last], id) == if last.id == id then last.status else LastStatus(operations, id)
  {
    assert (operations + [last])[..|operations|] == operations;
  }

  lemma StatusAgreesWithTable(c: Coordinator, s: Step)
    requires s.Report?
    requires forall op | op in c.operations :: c.operations[op].id == op
    ensures Finishes(StatusOf(c, s)) <==> s.error || c.Done(s.waitingFor)
  {
    var status := StatusOf(c, s);
    forall i | 0 <= i < |s.waitingFor|
      ensures LastStatus(status.operations, s.waitingFor[i]).Terminal() <==>
              s.waitingFor[i] in c.operations && c.operations[s.waitingFor[i]].status.Terminal()
    {
      TableReportsStatus(c, s.waitingFor, s.waitingFor[i]);
    }
  }

  lemma StepAgrees(c: Coordinator, m: MirrorState, s: Step)
    requires Agrees(c, m) && Enabled(c, s)
    requires forall op | op in c.operations :: c.operations[op].id == op
    ensures Agrees(After(c, s), FoldFrom(m, Appended(c, s)))
    ensures forall op | op in After(c, s).operations :: After(c, s).operations[op].id == op
  {
    var items := Appended(c, s);
    if items != [] {
      assert items[..0] == [];
      assert FoldFrom(m, items) == ApplyItem(m, items[0]);
    }
    if s.Report? {
      StatusAgreesWithTable(c, s);
    }
  }

  lemma {:induction false} RunAgrees(c: Coordinator, m: MirrorState, steps: seq<Step>)
    requires Agrees(c, m) && Run(c, steps)
    requires forall op | op in c.operations :: c.operations[op].id == op
    ensures Agrees(Final(c, steps), FoldFrom(m, Log(c, steps)))
    decreases |steps|
  {
    if steps != [] {
      StepAgrees(c, m, steps[0]);
      FoldSplits(m, Appended(c, steps[0]), Log(After(c, steps[0]), steps[1..]));
      RunAgrees(After(c, steps[0]), FoldFrom(m, Appended(c, steps[0])), steps[1..]);
    }
  }

  /** Simulation: after any run, folding what the coordinator persisted says quiescent exactly
      when the coordinator is idle but for operations that no running call waits for, and tells
      the gate what the request in flight answers. Responses of superseded turns are among the
      items and change nothing. */
  lemma MirrorSimulatesCoordinator(steps: seq<Step>)
    requires Run(FRESH, steps)
    ensures var c, m := Final(FRESH, steps), Fold(Log(FRESH, steps));
            && (m.Quiescent() <==> c.IdleButOrphans())
            && (c.Idle() <==> m.Quiescent() && c.NoOrphans())
            && (m.inflight <==> c.request.Some?)
            && (c.request.Some? ==> m.turnReasons == c.delivering)
            && m.outstanding == c.calls
  {
    RunAgrees(FRESH, EMPTY, steps);
  }

  // ---- where the mirror's answer is the coordinator's ----

  /** The step leaves no operation running that no running call waits for. A response starts no
      call over one that alone waits for such an operation, an operation that runs is waited for
      when it starts, a report ends no such wait, and a fork comes when nothing runs. */
  predicate Careful(c: Coordinator, s: Step) {
    match s
    case Deliver(response) =>
      forall call, op | call in CallIds(response.output) && call in c.calls && op in c.calls[call] && c.Runs(op) ::
        AwaitedBeyond(c, op, CallIds(response.output))
    case Update(op) => op.status.Terminal() || c.Awaited(op.id)
    case Report(callId, error, waitingFor) =>
      forall op | callId in c.calls && op in c.calls[callId] && c.Runs(op) ::
        (!error && op in waitingFor && !c.Done(waitingFor)) || AwaitedBeyond(c, op, {callId})
    case ForkSession => forall op | op in c.operations :: !c.Runs(op)
    case _ => true
  }

  /** Some running call other than `calls` waits for `op`. */
  predicate AwaitedBeyond(c: Coordinator, op: OpId, calls: set<CallId>) {
    exists call | call in c.calls && call !in calls :: op in c.calls[call]
  }

  /** Exactly the careful steps keep every running operation waited for. */
  lemma CarefulStepsKeepNoOrphans(c: Coordinator, s: Step)
    requires c.NoOrphans() && Enabled(c, s)
    ensures After(c, s).NoOrphans() <==> Careful(c, s)
  {
    match s
    case Deliver(response) => DeliverOrphans(c, response);
    case Update(op) => UpdateOrphans(c, op);
    case Report(_, _, _) => ReportOrphans(c, s);
    case ForkSession =>
      var y := After(c, s);
      assert forall op :: y.Runs(op) == c.Runs(op) && !y.Awaited(op);
    case _ =>
      var y := After(c, s);
      assert forall op :: y.Runs(op) == c.Runs(op) && y.Awaited(op) == c.Awaited(op);
  }

  lemma DeliverOrphans(c: Coordinator, response: Response)
    requires c.NoOrphans()
    ensures After(c, Deliver(response)).NoOrphans() <==> Careful(c, Deliver(response))
  {
    var y := After(c, Deliver(response));
    var started := CallIds(response.output);
    forall op
      ensures y.Runs(op) == c.Runs(op) && (y.Awaited(op) <==> AwaitedBeyond(c, op, started))
    {
      if y.Awaited(op) {
        var call :| call in y.calls && op in y.calls[call];
        assert call !in started;
      }
      if AwaitedBeyond(c, op, started) {
        var call :| call in c.calls && call !in started && op in c.calls[call];
        assert call in y.calls && op in y.calls[call];
      }
    }
    if Careful(c, Deliver(response)) {
      forall op | op in y.operations && y.Runs(op)
        ensures y.Awaited(op)
      {
        assert c.Awaited(op);
        var call :| call in c.calls && op in c.calls[call];
        assert call !in started ==> AwaitedBeyond(c, op, started);
      }
    }
  }

  lemma UpdateOrphans(c: Coordinator, op: Operation)
    requires c.NoOrphans()
    ensures After(c, Update(op)).NoOrphans() <==> Careful(c, Update(op))
  {
    var y := After(c, Update(op));
    assert forall other :: y.Awaited(other) == c.Awaited(other);
    assert forall other | other != op.id :: y.Runs(other) == c.Runs(other);
    assert y.Runs(op.id) == !op.status.Terminal();
    assert op.id in y.operations;
  }

  lemma ReportOrphans(c: Coordinator, s: Step)
    requires c.NoOrphans() && Enabled(c, s) && s.Report?
    ensures After(c, s).NoOrphans() <==> Careful(c, s)
  {
    var y := After(c, s);
    var ended := s.error || c.Done(s.waitingFor);
    forall op
      ensures y.Runs(op) == c.Runs(op)
      ensures y.Awaited(op) <==> (!ended && op in s.waitingFor) || AwaitedBeyond(c, op, {s.callId})
    {
      ReportAwaits(c, s, op);
    }
    if Careful(c, s) {
      forall op | op in y.operations && y.Runs(op)
        ensures y.Awaited(op)
      {
        assert c.Awaited(op);
        var call :| call in c.calls && op in c.calls[call];
        assert call != s.callId ==> AwaitedBeyond(c, op, {s.callId});
      }
    }
  }

  lemma ReportAwaits(c: Coordinator, s: Step, op: OpId)
    requires Enabled(c, s) && s.Report?
    ensures var ended := s.error || c.Done(s.waitingFor);
            After(c, s).Awaited(op) <==> (!ended && op in s.waitingFor) || AwaitedBeyond(c, op, {s.callId})
  {
    var y := After(c, s);
    if y.Awaited(op) {
      var call :| call in y.calls && op in y.calls[call];
      assert call != s.callId ==> call in c.calls && op in c.calls[call];
    }
    if AwaitedBeyond(c, op, {s.callId}) {
      var call :| call in c.calls && call !in {s.callId} && op in c.calls[call];
      assert call in y.calls && op in y.calls[call];
    }
    if !s.error && !c.Done(s.waitingFor) && op in s.waitingFor {
      assert s.callId in y.calls && op in y.calls[s.callId];
    }
  }

  predicate AllCareful(c: Coordinator, steps: seq<Step>)
    decreases |steps|
  {
    steps == [] || (Careful(c, steps[0]) && AllCareful(After(c, steps[0]), steps[1..]))
  }

  lemma {:induction false} CarefulRunsHaveNoOrphans(c: Coordinator, steps: seq<Step>)
    requires c.NoOrphans() && Run(c, steps) && AllCareful(c, steps)
    ensures Final(c, steps).NoOrphans()
    decreases |steps|
  {
    if steps != [] {
      CarefulStepsKeepNoOrphans(c, steps[0]);
      CarefulRunsHaveNoOrphans(After(c, steps[0]), steps[1..]);
    }
  }

  /** While the coordinator takes careful steps only, the mirror is quiescent exactly when the
      coordinator is idle. */
  lemma QuiescentMeansIdleInCarefulRuns(steps: seq<Step>)
    requires Run(FRESH, steps) && AllCareful(FRESH, steps)
    ensures Fold(Log(FRESH, steps)).Quiescent() <==> Final(FRESH, steps).Idle()
  {
    MirrorSimulatesCoordinator(steps);
    CarefulRunsHaveNoOrphans(FRESH, steps);
  }

  lemma OneRunStep(c: Coordinator, s: Step, rest: seq<Step>)
    requires Enabled(c, s) && Run(After(c, s), rest)
    ensures Run(c, [s] + rest) && Final(c, [s] + rest) == Final(After(c, s), rest)
  {
    assert ([s] + rest)[1..] == rest;
  }

  /** A call under way: the model asked for it, its status was persisted, its operation runs. */
  function Underway(call: CallId, op: Operation): Coordinator {
    FRESH.(newest := 1, issued := {1}, calls := map[call := [op.id]], operations := map[op.id := op])
  }

  lemma CallGetsUnderway(id: InputId, call: CallId, op: Operation) returns (steps: seq<Step>)
    requires op.status == Awaiting
    ensures Run(FRESH, steps) && AllCareful(FRESH, steps) && Final(FRESH, steps) == Underway(call, op)
  {
    var response := Response(1, [ToolCall(call)], StopComplete);
    assert response.output[0] == ToolCall(call) && response.output[..0] == [];
    var c1 := After(FRESH, Accept(id, External));
    var c2 := After(c1, Start(1));
    var c3 := After(c2, Deliver(response));
    assert c3.calls == map[call := []] && [op.id][0] !in c3.operations;
    var c4 := After(c3, Report(call, false, [op.id]));
    assert c4.calls[call] == [op.id] && c4.Awaited(op.id);
    assert After(c4, Update(op)) == Underway(call, op);
    OneCarefulStep(c4, Update(op), []);
    steps := [Update(op)] + [];
    OneCarefulStep(c3, Report(call, false, [op.id]), steps);
    steps := [Report(call, false, [op.id])] + steps;
    OneCarefulStep(c2, Deliver(response), steps);
    steps := [Deliver(response)] + steps;
    OneCarefulStep(c1, Start(1), steps);
    steps := [Start(1)] + steps;
    OneCarefulStep(FRESH, Accept(id, External), steps);
    steps := [Accept(id, External)] + steps;
  }

  lemma OneCarefulStep(c: Coordinator, s: Step, rest: seq<Step>)
    requires Enabled(c, s) && Careful(c, s) && Run(After(c, s), rest) && AllCareful(After(c, s), rest)
    ensures Run(c, [s] + rest) && AllCareful(c, [s] + rest) && Final(c, [s] + rest) == Final(After(c, s), rest)
  {
    assert ([s] + rest)[1..] == rest;
  }

  /** After a failed report the model is told of it, and answers. */
  lemma FailureIsTold(c: Coordinator, call: CallId)
    requires c.request.None? && c.waiting == [CallReason(call)] && c.issued == {1}
    ensures var steps := [Start(2)] + [Deliver(Response(2, [], StopComplete))];
            && Run(c, steps) && AllCareful(c, steps)
            && Final(c, steps) == c.(waiting := [], delivering := [], newest := 2, issued := {1, 2})
  {
    var response := Response(2, [], StopComplete);
    var c1 := After(c, Start(2));
    assert StartCalls(c1.calls, []) == c1.calls && CallIds([]) == {};
    assert [Deliver(response)] + [] == [Deliver(response)];
    OneCarefulStep(c1, Deliver(response), []);
    OneCarefulStep(c, Start(2), [Deliver(response)]);
  }

  /** A call reported as failed leaves its operation running: in a run whose only careless step is
      that report, the mirror ends up quiescent once the model was told, and the coordinator is
      not idle. */
  lemma FailedCallOrphansItsOperation(id: InputId, call: CallId, op: Operation)
    returns (before: seq<Step>, after: seq<Step>)
    requires op.status == Awaiting
    ensures var failure := Report(call, true, [op.id]);
            var steps := before + ([failure] + after);
            && Run(FRESH, steps)
            && AllCareful(FRESH, before)
            && !Careful(Final(FRESH, before), failure)
            && AllCareful(After(Final(FRESH, before), failure), after)
            && Fold(Log(FRESH, steps)).Quiescent() && !Final(FRESH, steps).Idle()
            && Final(FRESH, steps).Runs(op.id)
  {
    before := CallGetsUnderway(id, call, op);
    var failure, d := Report(call, true, [op.id]), Underway(call, op);
    var d1 := After(d, failure);
    after := [Start(2)] + [Deliver(Response(2, [], StopComplete))];
    FailureIsTold(d1, call);
    OneRunStep(d, failure, after);
    RunsJoin(FRESH, before, [failure] + after);
    MirrorSimulatesCoordinator(before + ([failure] + after));
    assert d.Runs(op.id) && op.id in d.calls[call];
    assert d1.calls == map[];
  }

  lemma {:induction false} RunsJoin(c: Coordinator, a: seq<Step>, b: seq<Step>)
    requires Run(c, a) && Run(Final(c, a), b)
    ensures Run(c, a + b) && Final(c, a + b) == Final(Final(c, a), b)
    decreases |a|
  {
    if a == [] {
      assert a + b == b;
    } else {
      assert (a + b)[0] == a[0] && (a + b)[1..] == a[1..] + b;
      RunsJoin(After(c, a[0]), a[1..], b);
    }
  }
}
