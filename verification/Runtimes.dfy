/** internal/runtime: the session runtime as the object it is. Every method is proved to do to
    the whole state what SessionSteps says, so what holds of all runs there holds here. */
module Runtimes {
  import opened Harness
  import opened Mirrors
  import opened Gates
  import opened Ops
  import opened Projection
  import opened SessionSteps

  /** Callbacks are fields: the operation manager's Tap is read off its trace, and updates sent to
      the client and answers given to prompts are appended to lists. */
  class Runtime {
    const gate: Gate
    const ops: Manager
    const sync: Mirror
    const am: Mirror
    const mode: PermissionMode
    var turns: Turns
    var opCall: map<OpId, CallId>
    var calls: set<CallId>
    var inputs: set<InputId>
    var cancelledCalls: set<CallId>
    var refuseNew: bool
    var announced: set<CallId>
    var started: set<CallId>
    var reported: set<CallId>
    var sent: seq<Update>
    var events: seq<Event>
    var timers: set<TurnTimer>
    var gen: Option<nat>
    var alwaysAllow: bool
    var alwaysReject: bool

    function Lookups(): Index
      reads this
    {
      Index(opCall, calls, inputs, cancelledCalls, refuseNew)
    }

    function Shown(): View
      reads this
    {
      View(announced, started, reported, sent)
    }

    function State(): Session
      reads this, gate, ops, sync, am
    {
      Session(gate.State(), ops.State(), sync.State(), am.State(), turns, Lookups(), Shown(),
              events, timers, gen, alwaysAllow, alwaysReject)
    }

    /** A runtime over its parts, before anything was recorded. */
    constructor (gate: Gate, ops: Manager, sync: Mirror, am: Mirror, mode: PermissionMode)
      ensures this.gate == gate && this.ops == ops && this.sync == sync && this.am == am && this.mode == mode
      ensures turns == Turns([], None, []) && events == [] && timers == {} && gen == None
      ensures Lookups() == NO_INDEX && Shown() == View({}, {}, {}, [])
      ensures !alwaysAllow && !alwaysReject
    {
      this.gate, this.ops, this.sync, this.am, this.mode := gate, ops, sync, am, mode;
      turns, events, timers, gen := Turns([], None, []), [], {}, None;
      opCall, calls, inputs, cancelledCalls, refuseNew := map[], {}, {}, {}, false;
      announced, started, reported, sent := {}, {}, {}, [];
      alwaysAllow, alwaysReject := false, false;
    }

    // ---- the coordinator's side ----

    /** The outputs of a response, one by one: learn each call, and refuse it after a cancel. */
    method IndexCalls(output: seq<Output>)
      modifies `calls, `cancelledCalls, gate
      ensures calls == old(calls) + CallIds(output)
      ensures cancelledCalls == old(cancelledCalls) + if refuseNew then CallIds(output) else {}
      ensures gate.State() == if refuseNew && CallIds(output) != {}
                              then ParkThese(old(gate.State()), CallIds(output), {}) else old(gate.State())
    {
      for i := 0 to |output|
        invariant calls == old(calls) + CallIds(output[..i])
        invariant cancelledCalls == old(cancelledCalls) + if refuseNew then CallIds(output[..i]) else {}
        invariant gate.State() == if refuseNew && CallIds(output[..i]) != {}
                                  then ParkThese(old(gate.State()), CallIds(output[..i]), {})
                                  else old(gate.State())
      {
        CallIdsExtend(output, i);
        if output[i].ToolCall? {
          var id := output[i].id;
          calls := calls + {id};
          if refuseNew {
            cancelledCalls := cancelledCalls + {id};
            gate.Park([id], []);
            assert (set c | c in [id]) == {id};
          }
        }
      }
      assert output[..|output|] == output;
    }

    method IndexOperations(status: ToolCallStatus)
      modifies `opCall
      ensures opCall == old(opCall) + map op | op in OpIds(status.operations) :: status.callId
    {
      for i := 0 to |status.operations|
        invariant opCall == old(opCall) + map op | op in OpIds(status.operations[..i]) :: status.callId
      {
        OpIdsExtend(status.operations, i);
        opCall := opCall[status.operations[i].id := status.callId];
      }
      assert status.operations[..|status.operations|] == status.operations;
    }

    method IndexItem(item: Item)
      modifies `opCall, `calls, `inputs, `cancelledCalls, gate
      ensures Lookups() == old(Lookups()).Add(item)
      ensures gate.State() == ParkRaced(old(gate.State()), old(Lookups()), item)
    {
      match item
      case Input(id, External) => inputs := inputs + {id};
      case ModelResponse(_, response) => IndexCalls(response.output);
      case CallStatus(status) => IndexOperations(status);
      case _ =>
    }

    method Observe(item: Item)
      requires sync != am
      modifies `opCall, `calls, `inputs, `cancelledCalls, `events, gate, sync
      ensures State() == Observed(old(State()), item)
    {
      sync.Apply(item);
      IndexItem(item);
      events := events + [EvItem(item)];
    }

    /** One page of seed's loop. */
    method SeedPage(page: seq<Item>)
      requires sync != am && !refuseNew
      modifies `opCall, `calls, `inputs, `cancelledCalls, gate, sync, am
      ensures sync.State() == FoldFrom(old(sync.State()), page) && am.State() == FoldFrom(old(am.State()), page)
      ensures Lookups() == IndexAll(old(Lookups()), page) && gate.State() == old(gate.State())
    {
      for i := 0 to |page|
        invariant sync.State() == FoldFrom(old(sync.State()), page[..i])
        invariant am.State() == FoldFrom(old(am.State()), page[..i])
        invariant Lookups() == IndexAll(old(Lookups()), page[..i]) && gate.State() == old(gate.State())
      {
        assert page[..i + 1][..i] == page[..i];
        sync.Apply(page[i]);
        am.Apply(page[i]);
        IndexItem(page[i]);
      }
      assert page[..|page|] == page;
    }

    /** seed: both mirrors and the lookups from the log, read in pages of any size. */
    method Seed(log: seq<Item>, pageSize: nat)
      requires sync != am && pageSize > 0 && !refuseNew
      modifies `opCall, `calls, `inputs, `cancelledCalls, gate, sync, am
      ensures sync.State() == FoldFrom(old(sync.State()), log) && am.State() == FoldFrom(old(am.State()), log)
      ensures Lookups() == IndexAll(old(Lookups()), log) && gate.State() == old(gate.State())
    {
      var after := 0;
      while after < |log|
        invariant after <= |log| && !refuseNew
        invariant sync.State() == FoldFrom(old(sync.State()), log[..after])
        invariant am.State() == FoldFrom(old(am.State()), log[..after])
        invariant Lookups() == IndexAll(old(Lookups()), log[..after]) && gate.State() == old(gate.State())
        decreases |log| - after
      {
        var page := log[after..if after + pageSize <= |log| then after + pageSize else |log|];
        FoldSplits(old(sync.State()), log[..after], page);
        FoldSplits(old(am.State()), log[..after], page);
        IndexAllSplits(old(Lookups()), log[..after], page);
        assert log[..after] + page == log[..after + |page|];
        SeedPage(page);
        after := after + |page|;
      }
      assert log[..|log|] == log;
    }

    /** What an interrupted turn left must not be answered again before the next prompt. */
    method ParkLeftovers()
      requires gate.State() == OPEN
      modifies gate
      ensures gate.State() == if sync.reasons != [] || sync.outstanding != map[]
                              then ParkThese(OPEN, sync.State().PendingCalls(), inputs) else OPEN
    {
      if sync.reasons != [] || sync.outstanding != map[] {
        var left := sync.Calls();
        var known := Listed(inputs);
        assert (set c | c in left) == sync.State().PendingCalls() && (set i | i in known) == inputs;
        gate.Park(left, known);
      }
    }

    /** Open: seed a new runtime from the log and park whatever an interrupted turn left. */
    method Open(log: seq<Item>, pageSize: nat)
      requires sync != am && pageSize > 0 && State() == Reopened([])
      modifies `opCall, `calls, `inputs, `cancelledCalls, gate, sync, am
      ensures State() == Reopened(log)
    {
      Seed(log, pageSize);
      ParkLeftovers();
    }

    method DecidePolicy(op: Operation) returns (verdict: Verdict)
      ensures verdict == Policy(State(), mode, op)
    {
      var id := if op.id in opCall then opCall[op.id] else NO_ID;
      if id in cancelledCalls {
        return Deny;
      }
      if !op.shell || mode == Auto || alwaysAllow {
        return Allow;
      }
      if alwaysReject {
        return Deny;
      }
      if mode == Allowlist && op.listed {
        return Allow;
      }
      return Ask;
    }

    // ---- turns ----

    method FinishLocked(k: nat, result: TurnResult)
      modifies `turns
      ensures turns == old(turns).Finish(k, result)
    {
      if k >= |turns.all| || turns.all[k].finished {
        return;
      }
      var t := turns.all[k].(finished := true);
      var flagged := result.(clientCancelled := t.clientCancelled);
      turns := Turns(turns.all[k := t], if turns.current == Some(k) then None else turns.current,
                     turns.answers + [(k, flagged)]);
    }

    method MarkClientCancelled()
      modifies `turns
      ensures State() == MarkCancelled(old(State()))
    {
      if turns.Running() {
        turns := turns.Put(turns.Now().value.(clientCancelled := true));
      }
    }

    /** ops.Cancel, with Tap posting what it shows. */
    method CancelOperation(id: OpId, reason: string)
      modifies `events, ops
      ensures State() == WithOps(old(State()), CancelNow(old(State()).ops, id, reason))
    {
      var shown := |ops.tapped|;
      ops.Cancel(id, reason);
      if |ops.tapped| > shown {
        events := events + [EvOp(ops.tapped[|ops.tapped| - 1])];
      }
    }

    /** The operations of one running call. */
    method CancelCall(waits: seq<OpId>, reason: string)
      modifies `events, ops
      ensures State() == CancelOps(old(State()), waits, reason)
    {
      for i := 0 to |waits|
        invariant State() == CancelOps(old(State()), waits[..i], reason)
      {
        assert waits[..i + 1][..i] == waits[..i];
        CancelOperation(waits[i], reason);
      }
      assert waits[..|waits|] == waits;
    }

    /** The loops of abortTurn over the running calls and their operations, in any order. */
    method CancelOperations(reason: string) returns (ghost ids: seq<OpId>)
      modifies `events, ops
      ensures State() == CancelOps(old(State()), ids, reason)
      ensures Enumerates(ids, old(State()))
    {
      ids := [];
      ghost var running := sync.outstanding;
      var rest := sync.outstanding.Keys;
      while rest != {}
        invariant rest <= running.Keys
        invariant State() == CancelOps(old(State()), ids, reason)
        invariant Covers(ids, running, running.Keys - rest)
      {
        var c :| c in rest;
        CancelOpsJoin(old(State()), ids, running[c], reason);
        CoversOneMore(ids, running, running.Keys - rest, c);
        CancelCall(sync.outstanding[c], reason);
        ids := ids + running[c];
        assert running.Keys - (rest - {c}) == (running.Keys - rest) + {c};
        rest := rest - {c};
      }
      assert running.Keys - {} == running.Keys;
    }

    /** abortTurn's locked section and the two calls of the gate. */
    method StartAbort()
      requires sync != am && Abortable(turns)
      modifies `turns, `refuseNew, `cancelledCalls, gate
      ensures turns == AbortMarks(old(State())).turns && Lookups() == AbortMarks(old(State())).index
      ensures gate.State() == AbortMarks(old(State())).gate
    {
      var t := turns.Now().value;
      var running := sync.outstanding.Keys;
      refuseNew := true;
      cancelledCalls := cancelledCalls + running;
      var ended := sync.Calls();
      var known := Listed(inputs + t.unobserved);
      gate.Park(ended, known);
      gate.CancelInflight();
      assert (set c | c in ended) == sync.State().PendingCalls();
      assert (set i | i in known) == inputs + t.unobserved;
      turns := turns.Put(t.(cancelling := true, waitCalls := t.waitCalls + running, steers := []));
    }

    method AbortTurn() returns (ghost ids: seq<OpId>)
      requires sync != am
      modifies `turns, `refuseNew, `cancelledCalls, `events, `timers, gate, ops
      ensures State() == Aborted(old(State()), ids)
      ensures Abortable(old(turns)) ==> Enumerates(ids, old(State()))
    {
      ids := [];
      if Abortable(turns) {
        var t := turns.Now().value;
        var k := turns.current.value;
        ghost var before := State();
        StartAbort();
        assert State() == AbortMarks(before);
        ids := CancelOperations(AbortReason(t));
        events := events + [EvWake];
        timers := timers + {GraceTimer(k)};
      }
    }

    /** CancelTurn: the client's flag, then the abort. */
    method CancelTurn() returns (ghost ids: seq<OpId>)
      requires sync != am
      modifies `turns, `refuseNew, `cancelledCalls, `events, `timers, gate, ops
      ensures State() == Aborted(MarkCancelled(old(State())), ids)
      ensures Abortable(old(turns)) ==> Enumerates(ids, old(State()))
    {
      MarkClientCancelled();
      ids := AbortTurn();
    }

    method Steer(id: InputId, interrupt: bool) returns (admittance: Admittance)
      modifies `turns, `events
      ensures (State(), admittance) == Steered(old(State()), id, interrupt)
    {
      if turns.Now().None? || turns.Now().value.finished || turns.Now().value.cancelling {
        return Refused;
      }
      var t := turns.Now().value;
      var noted := t.(unobserved := t.unobserved + {id});
      if !interrupt {
        turns := turns.Put(noted.(steers := t.steers + [id]));
        events := events + [EvWake];
        return Queued;
      }
      turns := turns.Put(noted);
      if gen.None? {
        return Refused;
      }
      return Interrupting(gen.value);
    }

    method Prompt(id: InputId) returns (turn: Option<nat>)
      modifies `turns, `refuseNew, `cancelledCalls
      ensures (State(), turn) == Prompted(old(State()), id)
    {
      if id in inputs {
        return None;
      }
      turn := Some(|turns.all|);
      turns := turns.(all := turns.all + [NewTurn(id)], current := turn);
      refuseNew := false;
      cancelledCalls := {};
    }

    // ---- the actor ----

    method Send(update: Update)
      modifies `sent
      ensures Shown() == old(Shown()).Send(update)
    {
      sent := sent + [update];
    }

    method Announce(id: CallId)
      modifies `announced, `sent
      ensures Shown() == old(Shown()).Announce(calls, id)
    {
      var known := id in calls;
      var first := known && id !in announced;
      if first {
        announced := announced + {id};
        Send(CallStart(id));
      }
    }

    method ProjectLive(item: Item)
      modifies `announced, `reported, `sent
      ensures Shown() == ProjectedLive(old(Shown()), calls, item)
    {
      match item
      case ModelResponse(_, response) =>
        for i := 0 to |response.output|
          invariant Shown() == AnnounceAll(old(Shown()), calls, response.output[..i])
        {
          assert response.output[..i + 1][..i] == response.output[..i];
          if response.output[i].ToolCall? {
            Announce(response.output[i].id);
          }
        }
        assert response.output[..|response.output|] == response.output;
      case CallStatus(status) =>
        var terminal := Terminal(status);
        if !terminal || status.callId in reported {
          return;
        }
        reported := reported + {status.callId};
        Announce(status.callId);
        var update := ToolResult(status);
        Send(update);
      case _ =>
    }

    method ProjectOperation(op: Operation)
      modifies `announced, `started, `sent
      ensures Shown() == if op.status == Awaiting then old(Shown()).Start(calls, Lookups().CallOf(op.id))
                         else old(Shown())
    {
      if op.status != Awaiting {
        return;
      }
      var id := if op.id in opCall then opCall[op.id] else NO_ID;
      if id == NO_ID || id in started || id in reported {
        return;
      }
      started := started + {id};
      Announce(id);
      Send(CallProgress(id));
    }

    method Bookkeep(item: Item)
      modifies `turns
      ensures turns == if old(turns).Now().Some? then old(turns).Put(Bookkept(old(turns).Now().value, item))
                       else old(turns)
    {
      if turns.Now().None? {
        return;
      }
      var t := turns.Now().value;
      match item
      case Input(id, _) => turns := turns.Put(t.(unobserved := t.unobserved - {id}));
      case ModelResponse(_, response) =>
        if response.stop == StopMaxOutputTokens {
          turns := turns.Put(t.(stop := Some(MaxTokens)));
        } else if response.stop == StopRefused {
          turns := turns.Put(t.(stop := Some(Refusal)));
        }
      case CallStatus(status) =>
        var terminal := Terminal(status);
        if terminal {
          turns := turns.Put(t.(waitCalls := t.waitCalls - {status.callId}));
        }
      case _ =>
    }

    method HandleItem(item: Item)
      requires sync != am
      modifies `announced, `reported, `sent, `turns, am
      ensures State() == HandledItem(old(State()), item)
    {
      am.Apply(item);
      ProjectLive(item);
      Bookkeep(item);
    }

    method HandleModelError(code: nat) returns (ghost ids: seq<OpId>)
      requires sync != am
      modifies `turns, `refuseNew, `cancelledCalls, `events, `timers, gate, ops
      ensures State() == if ErrorAborts(old(State())) then Aborted(Noted(old(State()), code), ids)
                         else Noted(old(State()), code)
      ensures ErrorAborts(old(State())) ==> Enumerates(ids, old(State()))
    {
      ids := [];
      var present := turns.Now().Some?;
      if turns.Running() {
        turns := turns.Put(turns.Now().value.(err := Some(ProviderFailed(code))));
      }
      if present && |sync.outstanding| > 0 {
        ids := AbortTurn();
      }
    }

    method HandleRunExit(ended: nat, failed: Option<nat>)
      modifies `gen, `turns
      ensures State() == HandledExit(old(State()), ended, failed)
    {
      if gen == Some(ended) {
        gen := None;
      }
      if failed.Some? && turns.Now().Some? {
        var t := turns.Now().value;
        var result := TurnResult(None, Some(CoordinatorStopped(failed.value)), false);
        if t.cancelling {
          result := result.(stop := Some(StopCancelled));
        }
        FinishLocked(turns.current.value, result);
      }
    }

    /** A failed update for every call not yet reported. */
    method FailUnreported(waiting: seq<CallId>, byClient: bool)
      modifies `announced, `reported, `sent
      ensures Shown() == old(Shown()).ReportAll(calls, waiting, byClient)
    {
      for i := 0 to |waiting|
        invariant Shown() == old(Shown()).ReportAll(calls, waiting[..i], byClient)
      {
        assert waiting[..i + 1][..i] == waiting[..i];
        if waiting[i] !in reported {
          reported := reported + {waiting[i]};
          Announce(waiting[i]);
          Send(CallFailed(waiting[i], byClient));
        }
      }
      assert waiting[..|waiting|] == waiting;
    }

    /** The flush event: `list` holds the calls still waited for, in map order. */
    method HandleFlush(k: nat) returns (ghost list: seq<CallId>)
      modifies `announced, `reported, `sent, `turns
      ensures State() == HandledFlush(old(State()), k, list)
      ensures old(turns.current) == Some(k) && old(turns.Now()).Some? ==>
                forall c :: c in list <==> c in old(turns.Now()).value.waitCalls
    {
      list := [];
      if turns.current == Some(k) && turns.Now().Some? {
        var t := turns.Now().value;
        var waiting := Listed(t.waitCalls);
        turns := turns.Put(t.(waitCalls := {}, flushed := true));
        FailUnreported(waiting, t.clientCancelled);
        list := waiting;
      }
    }

    method HandleOperation(op: Operation)
      modifies `announced, `started, `sent
      ensures State() == HandledOperation(old(State()), op)
    {
      ProjectOperation(op);
    }

    method HandlePermission(op: Operation)
      modifies `announced, `sent
      ensures State() == Handled(old(State()), EvPermission(op), [])
    {
      Announce(if op.id in opCall then opCall[op.id] else NO_ID);
    }

    method HandleGrace(k: nat)
      modifies `timers
      ensures State() == Handled(old(State()), EvCancelGrace(k), [])
    {
      if turns.current == Some(k) && turns.Running() {
        timers := timers + {FlushTimer(k)};
      }
    }

    method Handle(ev: Event) returns (ghost ids: seq<OpId>, ghost list: seq<CallId>)
      requires sync != am
      modifies `turns, `refuseNew, `cancelledCalls, `events, `timers, `gen, `announced, `started, `reported, `sent
      modifies gate, ops, am
      ensures State() == HandledWhole(old(State()), ev, ids, list)
      ensures Orders(old(State()), ev, ids, list)
    {
      ids, list := [], [];
      match ev
      case EvItem(item) => HandleItem(item);
      case EvDelta(_) =>
      case EvOp(op) => HandleOperation(op);
      case EvPermission(op) => HandlePermission(op);
      case EvModelError(code) =>
        WholeError(State(), code);
        ids := HandleModelError(code);
      case EvRunExit(ended, failed) => HandleRunExit(ended, failed);
      case EvWake =>
      case EvCancelGrace(k) => HandleGrace(k);
      case EvCancelFlush(k) => list := HandleFlush(k);
    }

    method Evaluate() returns (steers: seq<InputId>)
      requires sync != am
      modifies `turns
      ensures (State(), steers) == Evaluated(old(State()))
    {
      steers := [];
      if turns.Now().None? || turns.Now().value.finished {
        return;
      }
      var t := turns.Now().value;
      var k := turns.current.value;
      if t.cancelling {
        if t.waitCalls == {} && (!am.inflight || t.flushed) {
          FinishLocked(k, TurnResult(Some(StopCancelled), t.err, false));
        }
        return;
      }
      if |t.steers| > 0 && !am.inflight && gen.Some? {
        steers := t.steers;
        turns := turns.Put(t.(steers := []));
        return;
      }
      var idle := am.Quiescent();
      if idle && t.unobserved == {} && |t.steers| == 0 {
        FinishLocked(k, TurnResult(if t.stop.Some? then t.stop else Some(EndTurn), t.err, false));
      }
    }
  }

  /** A model error handled undisturbed is the note and then abortTurn. */
  lemma WholeError(s: Session, code: nat)
    ensures forall ids, calls :: HandledWhole(s, EvModelError(code), ids, calls) ==
              if ErrorAborts(s) then Aborted(Noted(s, code), ids) else Noted(s, code)
  {
  }

  method Listed(ids: set<InputId>) returns (list: seq<InputId>)
    ensures forall i :: i in list <==> i in ids
  {
    list := [];
    var rest := ids;
    while rest != {}
      invariant rest <= ids
      invariant forall i :: i in list <==> i in ids && i !in rest
    {
      var id :| id in rest;
      rest := rest - {id};
      list := list + [id];
    }
  }

  /** `ids` are the operations the calls `done` wait for. */
  ghost predicate Covers(ids: seq<OpId>, running: map<CallId, seq<OpId>>, done: set<CallId>) {
    forall op :: op in ids <==> exists c :: c in done && c in running && op in running[c]
  }

  lemma CoversOneMore(ids: seq<OpId>, running: map<CallId, seq<OpId>>, done: set<CallId>, c: CallId)
    requires Covers(ids, running, done) && c in running
    ensures Covers(ids + running[c], running, done + {c})
  {
  }

  lemma {:induction false} CancelOpsJoin(s: Session, a: seq<OpId>, b: seq<OpId>, reason: string)
    ensures CancelOps(s, a + b, reason) == CancelOps(CancelOps(s, a, reason), b, reason)
    decreases |b|
  {
    if b == [] {
      assert a + b == a;
    } else {
      assert (a + b)[..|a + b| - 1] == a + b[..|b| - 1];
      CancelOpsJoin(s, a, b[..|b| - 1], reason);
    }
  }

  lemma {:induction false} IndexAllSplits(ix: Index, a: seq<Item>, b: seq<Item>)
    ensures IndexAll(ix, a + b) == IndexAll(IndexAll(ix, a), b)
    ensures IndexAll(ix, b).refuseNew == ix.refuseNew
    decreases |b|
  {
    if b == [] {
      assert a + b == a;
    } else {
      assert (a + b)[..|a + b| - 1] == a + b[..|b| - 1];
      IndexAllSplits(ix, a, b[..|b| - 1]);
    }
  }

  lemma OpIdsExtend(operations: seq<Operation>, i: nat)
    requires i < |operations|
    ensures OpIds(operations[..i + 1]) == OpIds(operations[..i]) + {operations[i].id}
  {
    var shorter, longer := operations[..i], operations[..i + 1];
    assert forall j | 0 <= j < i :: longer[j] == shorter[j];
    assert longer[i] == operations[i];
  }
}
