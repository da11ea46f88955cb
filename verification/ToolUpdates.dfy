/** What the client is shown is what happened: every event about a tool call that has something to show
    leads to its update. */
module ToolUpdates {
  import opened Harness
  import opened Mirrors
  import opened Ops
  import opened Projection
  import opened SessionSteps
  import opened SessionRuns
  import opened Replicas
  import opened CancelledWork
  import opened ToolCalls

  /** The calls of every recorded response are known, and the operations of every recorded status are
      filed under its call. */
  ghost predicate Logged(m: Machine) {
    && (forall j | 0 <= j < |m.log| && m.log[j].ModelResponse? ::
          CallIds(m.log[j].response.output) <= m.s.index.calls)
    && (forall j | 0 <= j < |m.log| && m.log[j].CallStatus? ::
          FiledUnder(m.s.index, OpIds(m.log[j].status.operations), m.log[j].status.callId))
  }

  predicate FiledUnder(ix: Index, ops: set<OpId>, c: CallId) {
    forall op | op in ops :: op in ix.opCall && ix.opCall[op] == c
  }

  /** What is filed stays filed, and the operations of a new status are. */
  lemma AddFiles(ix: Index, item: Item, ops: set<OpId>, c: CallId)
    requires Sensible(ix, item) && FiledUnder(ix, ops, c)
    ensures FiledUnder(ix.Add(item), ops, c)
    ensures item.CallStatus? ==> FiledUnder(ix.Add(item), OpIds(item.status.operations), item.status.callId)
  {
  }

  lemma AppendLogged(m: Machine, step: Step)
    requires Logged(m) && Enabled(m, step) && Appends(step)
    ensures Logged(After(m, step))
  {
    var y := After(m, step);
    assert |y.log| == |m.log| + 1;
    var item := y.log[|m.log|];
    assert y.log == m.log + [item] && y.s.index == m.s.index.Add(item) && Sensible(m.s.index, item);
    ItemLogged(m, y, item);
  }

  lemma ItemLogged(m: Machine, y: Machine, item: Item)
    requires Logged(m) && Sensible(m.s.index, item) && y.log == m.log + [item] && y.s.index == m.s.index.Add(item)
    ensures Logged(y)
  {
    assert m.s.index.calls <= y.s.index.calls;
    assert forall j | 0 <= j < |m.log| :: y.log[j] == m.log[j];
    AddFiles(m.s.index, item, {}, 0);
    forall j | 0 <= j < |m.log| && m.log[j].CallStatus?
      ensures FiledUnder(y.s.index, OpIds(m.log[j].status.operations), m.log[j].status.callId)
    {
      AddFiles(m.s.index, item, OpIds(m.log[j].status.operations), m.log[j].status.callId);
    }
  }

  lemma {:induction false} RunLogged(m: Machine, steps: seq<Step>)
    requires Logged(m) && Run(m, steps)
    ensures Logged(Final(m, steps))
    decreases |steps|
  {
    if steps != [] {
      if Appends(steps[0]) {
        AppendLogged(m, steps[0]);
      } else {
        RecordsKept(m, steps[0]);
      }
      RunLogged(After(m, steps[0]), steps[1..]);
    }
  }

  lemma {:induction false} OpenedLogged(log: seq<Item>)
    requires SensibleLog(log)
    ensures Logged(Opened(log))
  {
    if log != [] {
      var before, item := log[..|log| - 1], log[|log| - 1];
      var ix := IndexAll(NO_INDEX, before);
      OpenedLogged(before);
      assert forall j | 0 <= j < |before| :: log[j] == before[j];
      AddFiles(ix, item, {}, 0);
      forall j | 0 <= j < |before| && log[j].CallStatus?
        ensures FiledUnder(ix.Add(item), OpIds(log[j].status.operations), log[j].status.callId)
      {
        AddFiles(ix, item, OpIds(log[j].status.operations), log[j].status.callId);
      }
    }
  }

  /** The lookups know the log: in every run, the calls of its responses are known, and each operation
      of each of its statuses is filed under the call it belongs to. */
  lemma LookupsKnowTheLog(log: seq<Item>, m: Machine)
    requires SensibleLog(log) && Reaches(Opened(log), m)
    ensures Logged(m)
  {
    OpenedLogged(log);
    var steps :| Run(Opened(log), steps) && m == Final(Opened(log), steps);
    RunLogged(Opened(log), steps);
  }

  /** What is known of the head of the queue when the actor takes it. */
  lemma HeadIsKnown(log: seq<Item>, m: Machine)
    requires SensibleLog(log) && Reaches(Opened(log), m) && m.s.events != []
    ensures AllTold(m.s.view) && InPlay(m.s)
    ensures m.s.events[0].EvItem? && m.s.events[0].item.ModelResponse? ==>
              CallIds(m.s.events[0].item.response.output) <= m.s.index.calls
  {
    OpenedInPlay(log);
    ReachedTold(Opened(log), m);
    OpenedReplicated(log);
    ReachedReplicated(Opened(log), m);
    LookupsKnowTheLog(log, m);
    if m.s.events[0].EvItem? {
      ItemsHead(m.s.events);
      assert m.log[m.applied..][0] == m.log[m.applied] == m.s.events[0].item;
    }
  }

  /** The updates sent for call `c` that are final. */
  predicate Closed(sent: seq<Update>, c: CallId) {
    Terminal in Story(sent, c)
  }

  lemma ToldMarks(v: View, c: CallId)
    requires Told(v, c)
    ensures Pending in Story(v.sent, c) <==> c in v.announced
    ensures InProgress in Story(v.sent, c) <==> c in v.started
    ensures Closed(v.sent, c) <==> c in v.reported
  {
    var a := if c in v.announced then [Pending] else [];
    var b := if c in v.started then [InProgress] else [];
    var d := if c in v.reported then [Terminal] else [];
    assert Story(v.sent, c) == a + b + d;
    assert c in v.announced ==> (a + b + d)[0] == Pending;
    assert c in v.started ==> (a + b + d)[|a|] == InProgress;
    assert c in v.reported ==> (a + b + d)[|a| + |b|] == Terminal;
  }

  lemma ItemShows(m: Machine, ids: seq<OpId>, calls: seq<CallId>, item: Item)
    requires m.s.events != [] && m.s.events[0] == EvItem(item)
    ensures Popped(m, ids, calls).s.view == ProjectedLive(m.s.view, m.s.index.calls, item)
  {
  }

  lemma FlushShows(m: Machine, ids: seq<OpId>, calls: seq<CallId>, k: nat)
    requires m.s.events != [] && m.s.events[0] == EvCancelFlush(k)
    requires m.s.turns.current == Some(k) && m.s.turns.Now().Some?
    ensures Popped(m, ids, calls).s.view ==
            m.s.view.ReportAll(m.s.index.calls, calls, m.s.turns.Now().value.clientCancelled)
  {
  }

  /** The call ended with an error, or with an operation that did not succeed. */
  predicate EndedBadly(status: ToolCallStatus) {
    status.error || exists op | op in status.operations :: op.status == Failed || op.status == Canceled
  }

  /** A tool that ends is shown as it ended: when the actor takes a status that ends a call whose final
      update was not sent yet, it sends the call's result, failed if and only if the status has an
      error or one of its operations failed or was canceled, announcing the call first if that was
      not done. Any other status shows nothing. */
  lemma ResultsAreShown(log: seq<Item>, m: Machine, ids: seq<OpId>, calls: seq<CallId>, status: ToolCallStatus)
    requires SensibleLog(log) && Reaches(Opened(log), m) && Enabled(m, Pop(ids, calls))
    requires m.s.events[0] == EvItem(CallStatus(status))
    ensures var c, before, after := status.callId, m.s.view.sent, Popped(m, ids, calls).s.view.sent;
            after == if !Finishes(status) || Closed(before, c) then before
                     else before + (if Pending in Story(before, c) then [] else [CallStart(c)]) +
                          [CallResult(c, EndedBadly(status))]
  {
    HeadIsKnown(log, m);
    assert Told(m.s.view, status.callId);
    StatusShows(m.s.view, m.s.index.calls, status);
    ItemShows(m, ids, calls, CallStatus(status));
  }

  lemma StatusShows(v: View, calls: set<CallId>, status: ToolCallStatus)
    requires Told(v, status.callId) && status.callId in calls
    ensures var c, after := status.callId, ProjectedLive(v, calls, CallStatus(status)).sent;
            after == if !Finishes(status) || Closed(v.sent, c) then v.sent
                     else v.sent + (if Pending in Story(v.sent, c) then [] else [CallStart(c)]) +
                          [CallResult(c, EndedBadly(status))]
  {
    assert EndedBadly(status) == ResultFailed(status);
    ToldMarks(v, status.callId);
    ReportShows(v, calls, CallResult(status.callId, ResultFailed(status)));
  }

  lemma ReportShows(v: View, calls: set<CallId>, u: Update)
    requires u.id in calls
    ensures v.Report(calls, u).sent ==
            if u.id in v.reported then v.sent
            else v.sent + (if u.id in v.announced then [] else [CallStart(u.id)]) + [u]
  {
    assert v.sent + [] == v.sent;
  }

  lemma {:induction false} AllAnnounced(v: View, calls: set<CallId>, output: seq<Output>)
    requires CallIds(output) <= calls
    ensures v.announced + CallIds(output) <= AnnounceAll(v, calls, output).announced
  {
    if output != [] {
      var before := output[..|output| - 1];
      assert forall i | 0 <= i < |before| :: before[i] == output[i];
      assert CallIds(before) <= CallIds(output);
      AllAnnounced(v, calls, before);
      forall c | c in CallIds(output)
        ensures c in CallIds(before) || output[|output| - 1] == ToolCall(c)
      {
        var i :| 0 <= i < |output| && output[i] == ToolCall(c);
        if i < |before| {
          assert before[i] == ToolCall(c);
        }
      }
    }
  }

  /** Every call of a response is announced when the actor takes the response. */
  lemma CallsAreAnnounced(log: seq<Item>, m: Machine, ids: seq<OpId>, calls: seq<CallId>, turnId: TurnId,
                          response: Response, c: CallId)
    requires SensibleLog(log) && Reaches(Opened(log), m) && Enabled(m, Pop(ids, calls))
    requires m.s.events[0] == EvItem(ModelResponse(turnId, response)) && c in CallIds(response.output)
    ensures Pending in Story(Popped(m, ids, calls).s.view.sent, c)
  {
    HeadIsKnown(log, m);
    StepTold(m, Pop(ids, calls));
    AllAnnounced(m.s.view, m.s.index.calls, response.output);
    var v := Popped(m, ids, calls).s.view;
    ItemShows(m, ids, calls, ModelResponse(turnId, response));
    assert Told(v, c);
    ToldMarks(v, c);
  }

  /** An operation that runs shows its call as in progress, and one that is asked about shows its call,
      unless the call had its final update. */
  lemma OperationsAreShown(log: seq<Item>, m: Machine, ids: seq<OpId>, calls: seq<CallId>, op: Operation)
    requires SensibleLog(log) && Reaches(Opened(log), m) && Enabled(m, Pop(ids, calls)) && op.id in m.s.index.opCall
    requires (m.s.events[0] == EvOp(op) && op.status == Awaiting) || m.s.events[0] == EvPermission(op)
    ensures var c, after := m.s.index.opCall[op.id], Popped(m, ids, calls).s.view.sent;
            && (Closed(m.s.view.sent, c) || Pending in Story(after, c))
            && (m.s.events[0].EvOp? && !Closed(m.s.view.sent, c) ==> InProgress in Story(after, c))
  {
    HeadIsKnown(log, m);
    StepTold(m, Pop(ids, calls));
    var c, v := m.s.index.opCall[op.id], Popped(m, ids, calls).s.view;
    assert Told(m.s.view, c) && Told(v, c) && c in m.s.index.calls;
    ToldMarks(m.s.view, c);
    ToldMarks(v, c);
  }

  /** Nothing else is shown: no operation that does not run, and no other event. */
  lemma OtherEventsShowNothing(m: Machine, ids: seq<OpId>, calls: seq<CallId>)
    requires m.s.events != []
    requires match m.s.events[0]
             case EvItem(item) => !item.ModelResponse? && !item.CallStatus?
             case EvOp(op) => op.status != Awaiting
             case EvPermission(_) => false
             case EvCancelFlush(k) => m.s.turns.current != Some(k)
             case _ => true
    ensures Popped(m, ids, calls).s.view == m.s.view
  {
  }

  lemma {:induction false} AllReported(v: View, calls: set<CallId>, ids: seq<CallId>, byClient: bool, c: CallId)
    requires c in ids && c !in v.reported
    ensures CallFailed(c, byClient) in v.ReportAll(calls, ids, byClient).sent
  {
    var last := |ids| - 1;
    var v1 := v.ReportAll(calls, ids[..last], byClient);
    if c in ids[..last] {
      AllReported(v, calls, ids[..last], byClient, c);
      assert v1.sent <= v1.Report(calls, CallFailed(ids[last], byClient)).sent;
    } else {
      assert ids[last] == c;
      UnreportedStays(v, calls, ids[..last], byClient, c);
      var sent := v1.Report(calls, CallFailed(c, byClient)).sent;
      assert sent[|sent| - 1] == CallFailed(c, byClient);
    }
  }

  lemma {:induction false} UnreportedStays(v: View, calls: set<CallId>, ids: seq<CallId>, byClient: bool, c: CallId)
    requires c !in ids && c !in v.reported
    ensures c !in v.ReportAll(calls, ids, byClient).reported
  {
    if ids != [] {
      UnreportedStays(v, calls, ids[..|ids| - 1], byClient, c);
    }
  }

  /** The flush shows every call the turn still waits for as failed, by the client if and only if its
      flag is set, unless the call had its final update. */
  lemma FlushedCallsAreShown(log: seq<Item>, m: Machine, ids: seq<OpId>, calls: seq<CallId>, k: nat, c: CallId)
    requires SensibleLog(log) && Reaches(Opened(log), m) && Enabled(m, Pop(ids, calls))
    requires m.s.events[0] == EvCancelFlush(k) && m.s.turns.current == Some(k) && m.s.turns.Now().Some?
    requires c in m.s.turns.Now().value.waitCalls && !Closed(m.s.view.sent, c)
    ensures CallFailed(c, m.s.turns.Now().value.clientCancelled) in Popped(m, ids, calls).s.view.sent
  {
    HeadIsKnown(log, m);
    var byClient := m.s.turns.Now().value.clientCancelled;
    assert Told(m.s.view, c);
    ToldMarks(m.s.view, c);
    AllReported(m.s.view, m.s.index.calls, calls, byClient, c);
    FlushShows(m, ids, calls, k);
  }

  // ---- every snapshot reaches the queue ----

  /** At most one snapshot was shown to Tap, and it is the newest event. */
  ghost predicate Posted(m: Machine, y: Machine) {
    y.s.ops.tapped == m.s.ops.tapped ||
    exists op :: y.s.ops.tapped == m.s.ops.tapped + [op] && y.s.events == m.s.events + [EvOp(op)]
  }

  lemma OpsPosted(m: Machine, ops: OpsState)
    requires ops.tapped == m.s.ops.tapped || exists op :: ops.tapped == m.s.ops.tapped + [op]
    ensures Posted(m, m.(s := WithOps(m.s, ops)))
  {
  }

  /** Whatever snapshot an operation shows, the actor is told: each that Tap sees is posted, by the
      step that shows it. */
  lemma SnapshotsArePosted(m: Machine, step: Step)
    requires Enabled(m, step)
    ensures Posted(m, After(m, step))
    ensures step.PumpOp? ==> After(m, step).s.events == m.s.events + [EvOp(step.op)]
  {
    match step
    case DoAction(i, accepted) => OpsPosted(m, Perform(m.s.ops, m.todo[i], accepted, true));
    case PumpOp(op) => OpsPosted(m, Emit(m.s.ops, op));
    case CancelNext(i) => OpsPosted(m, CancelNow(m.s.ops, m.aborts[i].ids[0], m.aborts[i].reason));
    case Pop(ids, calls) => PopKeepsOps(m, ids, calls);
    case _ => if Elsewhere(step) {
      ElsewhereKeepsOps(m, step);
    } else {
      OthersTapNothing(m, step);
    }
  }

  lemma OthersTapNothing(m: Machine, step: Step)
    requires Appends(step) || step.AddOp? || step.Permit? || step.Deliver?
    ensures After(m, step).s.ops.tapped == m.s.ops.tapped
  {
  }
}
