/** internal/mirror: coordinator scheduling state rebuilt from persisted items alone. */
module Mirrors {
  import opened Harness

  datatype Reason = InputReason(id: InputId) | CallReason(call: CallId) | HeartbeatReason(beat: InputId)

  datatype MirrorState = MirrorState(
    pending: int,
    reasons: seq<Reason>,
    turnReasons: seq<Reason>,
    lastTurn: TurnId,
    inflight: bool,
    outstanding: map<CallId, seq<OpId>>)
  {
    predicate Quiescent() {
      !inflight && pending == 0 && outstanding == map[]
    }

    /** Calls whose result the model has not had: running, or finished and waiting. */
    function PendingCalls(): set<CallId> {
      outstanding.Keys + (set i | 0 <= i < |reasons| && reasons[i].CallReason? :: reasons[i].call)
    }

    /** Every operation some running call waits for. */
    function PendingOps(): set<OpId> {
      set c, i | c in outstanding && 0 <= i < |outstanding[c]| :: outstanding[c][i]
    }
  }

  const EMPTY := MirrorState(0, [], [], NO_ID, false, map[])

  /** A status that ends its call. */
  predicate Finishes(status: ToolCallStatus) {
    status.error || |status.waitingFor| == 0 || Ended(status)
  }

  function Wake(m: MirrorState, reason: Reason): MirrorState {
    m.(pending := m.pending + 1, reasons := m.reasons + [reason])
  }

  function StartCalls(outstanding: map<CallId, seq<OpId>>, output: seq<Output>): map<CallId, seq<OpId>> {
    outstanding + map c | c in CallIds(output) :: []
  }

  /** What one persisted item does to the mirror. */
  function ApplyItem(m: MirrorState, item: Item): MirrorState {
    match item
    case Fork => m.(outstanding := map[])
    case Input(id, External) => Wake(m, InputReason(id))
    case Input(id, Heartbeat) => Wake(m, HeartbeatReason(id))
    case Input(_, OtherControl) => m
    case Turn(id) =>
      m.(lastTurn := id, inflight := true, turnReasons := m.reasons, reasons := [], pending := 0)
    case ModelResponse(turnId, response) =>
      if turnId != m.lastTurn then m
      else m.(inflight := false, outstanding := StartCalls(m.outstanding, response.output))
    case CallStatus(status) =>
      if status.callId !in m.outstanding then m
      else if Finishes(status) then
        Wake(m.(outstanding := m.outstanding - {status.callId}), CallReason(status.callId))
      else m.(outstanding := m.outstanding[status.callId := status.waitingFor])
  }

  function FoldFrom(m: MirrorState, items: seq<Item>): MirrorState {
    if items == [] then m else ApplyItem(FoldFrom(m, items[..|items| - 1]), items[|items| - 1])
  }

  function Fold(log: seq<Item>): MirrorState {
    FoldFrom(EMPTY, log)
  }

  /** Folding in two parts is folding the whole: paging, queueing and restarting lose nothing. */
  lemma {:induction false} FoldSplits(m: MirrorState, a: seq<Item>, b: seq<Item>)
    ensures FoldFrom(m, a + b) == FoldFrom(FoldFrom(m, a), b)
    decreases |b|
  {
    if b == [] {
      assert a + b == a;
    } else {
      var last := |b| - 1;
      assert (a + b)[..|a + b| - 1] == a + b[..last];
      FoldSplits(m, a, b[..last]);
    }
  }

  /** StatusTerminal (mirror.go): a map from operation to status, then a scan of the waits. */
  method StatusTerminal(status: ToolCallStatus) returns (terminal: bool)
    ensures terminal == Ended(status)
  {
    var byId: map<OpId, OpStatus> := map[];
    for i := 0 to |status.operations|
      invariant forall id :: (if id in byId then byId[id] else Unset) == LastStatus(status.operations[..i], id)
    {
      assert status.operations[..i + 1][..i] == status.operations[..i];
      byId := byId[status.operations[i].id := status.operations[i].status];
    }
    assert status.operations[..|status.operations|] == status.operations;
    for i := 0 to |status.waitingFor|
      invariant forall j | 0 <= j < i :: LastStatus(status.operations, status.waitingFor[j]).Terminal()
    {
      var id := status.waitingFor[i];
      assert (if id in byId then byId[id] else Unset) == LastStatus(status.operations, id);
      if id !in byId || !byId[id].Terminal() {
        return false;
      }
    }
    return true;
  }

  class Mirror {
    var pending: int
    var reasons: seq<Reason>
    var turnReasons: seq<Reason>
    var lastTurn: TurnId
    var inflight: bool
    var outstanding: map<CallId, seq<OpId>>

    function State(): MirrorState
      reads this
    {
      MirrorState(pending, reasons, turnReasons, lastTurn, inflight, outstanding)
    }

    constructor ()
      ensures State() == EMPTY
    {
      pending, reasons, turnReasons, lastTurn, inflight, outstanding := 0, [], [], NO_ID, false, map[];
    }

    method Quiescent() returns (idle: bool)
      ensures idle == State().Quiescent()
    {
      idle := !inflight && pending == 0 && |outstanding| == 0;
    }

    method StartAll(output: seq<Output>)
      modifies `outstanding
      ensures outstanding == StartCalls(old(outstanding), output)
    {
      for i := 0 to |output|
        invariant outstanding == StartCalls(old(outstanding), output[..i])
      {
        StartOneMore(old(outstanding), output, i);
        if output[i].ToolCall? {
          outstanding := outstanding[output[i].id := []];
        }
      }
      assert output[..|output|] == output;
    }

    method Apply(item: Item)
      modifies this
      ensures State() == ApplyItem(old(State()), item)
    {
      match item
      case Fork =>
        outstanding := map[];
      case Input(id, kind) =>
        match kind {
          case External =>
            pending := pending + 1;
            reasons := reasons + [InputReason(id)];
          case Heartbeat =>
            pending := pending + 1;
            reasons := reasons + [HeartbeatReason(id)];
          case OtherControl =>
        }
      case Turn(id) =>
        lastTurn := id;
        inflight := true;
        turnReasons := reasons;
        reasons := [];
        pending := 0;
      case ModelResponse(turnId, response) =>
        if turnId != lastTurn {
          return;
        }
        inflight := false;
        StartAll(response.output);
      case CallStatus(status) =>
        if status.callId !in outstanding {
          return;
        }
        var terminal := StatusTerminal(status);
        if status.error || |status.waitingFor| == 0 || terminal {
          outstanding := outstanding - {status.callId};
          pending := pending + 1;
          reasons := reasons + [CallReason(status.callId)];
          return;
        }
        outstanding := outstanding[status.callId := status.waitingFor];
    }

    /** Sync.Calls: the running calls in map order, then the finished ones waiting for a request. */
    method Calls() returns (ids: seq<CallId>)
      ensures forall c :: c in ids <==> c in State().PendingCalls()
    {
      ids := [];
      var keys := outstanding.Keys;
      while keys != {}
        invariant keys <= outstanding.Keys
        invariant forall c :: c in ids <==> c in outstanding && c !in keys
      {
        var id :| id in keys;
        keys := keys - {id};
        ids := ids + [id];
      }
      for i := 0 to |reasons|
        invariant forall c :: c in ids <==>
                    c in outstanding || exists j :: 0 <= j < i && reasons[j] == CallReason(c)
      {
        if reasons[i].CallReason? {
          assert reasons[i] == CallReason(reasons[i].call);
          ids := ids + [reasons[i].call];
        }
      }
    }
  }

  /** One more output adds at most its own call. */
  lemma CallIdsExtend(output: seq<Output>, i: nat)
    requires i < |output|
    ensures CallIds(output[..i + 1]) ==
            CallIds(output[..i]) + if output[i].ToolCall? then {output[i].id} else {}
  {
    var shorter, longer := output[..i], output[..i + 1];
    assert forall c :: c in CallIds(longer) ==> exists j :: 0 <= j < i + 1 && longer[j].ToolCall? && longer[j].id == c;
    forall c | c in CallIds(shorter)
      ensures c in CallIds(longer)
    {
      var j :| 0 <= j < i && shorter[j].ToolCall? && shorter[j].id == c;
      assert longer[j] == shorter[j];
    }
    assert longer[i] == output[i];
    forall c | c in CallIds(longer)
      ensures c in CallIds(shorter) || (output[i].ToolCall? && c == output[i].id)
    {
      var j :| 0 <= j < i + 1 && longer[j].ToolCall? && longer[j].id == c;
      if j < i {
        assert shorter[j] == longer[j];
      }
    }
  }

  lemma StartOneMore(outstanding: map<CallId, seq<OpId>>, output: seq<Output>, i: nat)
    requires i < |output|
    ensures StartCalls(outstanding, output[..i + 1]) ==
            var before := StartCalls(outstanding, output[..i]);
            if output[i].ToolCall? then before[output[i].id := []] else before
  {
    CallIdsExtend(output, i);
  }
}
