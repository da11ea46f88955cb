/** internal/gate: the model adapter the coordinator sees, which mutes and stops requests. */
module Gates {
  import opened Harness
  import opened Mirrors

  /** internal/tap: one observed stream event, tagged with its request and HTTP attempt. */
  datatype DeltaKind = Text(text: string) | Thinking | ToolStart | Served(model: nat) | Created(id: ResponseId)
  datatype Delta = Delta(seqNo: nat, attempt: nat, kind: DeltaKind)

  datatype Outcome = Provider | Muted | Cancelled | Errored
  datatype Record = Record(seqNo: nat, outcome: Outcome, model: nat)

  datatype GateState = GateState(
    seqNo: nat,
    parked: bool,
    parkedCalls: set<CallId>,
    parkedInputs: set<InputId>,
    inflight: bool,                     // inflightCancel != nil
    inflightSeq: nat,
    userStop: nat,
    partial: map<nat, string>,
    partialAttempt: map<nat, nat>,
    served: map<nat, nat>,
    created: map<nat, ResponseId>,
    records: map<ResponseId, Record>,
    providerCalls: nat)

  const OPEN := GateState(0, false, {}, {}, false, 0, 0, map[], map[], map[], map[], map[], 0)

  /** How Respond leaves its first locked section. */
  datatype Admission = Answered(response: Response) | Forwarded(seqNo: nat)

  /** What Respond returns: the context's error, or a completed response. */
  datatype Reply = Superseded | Reply(response: Response, outcome: Outcome)

  function ParkThese(g: GateState, calls: set<CallId>, inputs: set<InputId>): GateState {
    g.(parked := true, parkedCalls := g.parkedCalls + calls, parkedInputs := g.parkedInputs + inputs)
  }

  function StopInflight(g: GateState): GateState {
    if g.inflight then g.(userStop := g.inflightSeq) else g
  }

  predicate ParkedReason(g: GateState, reason: Reason) {
    match reason
    case CallReason(id) => id in g.parkedCalls
    case InputReason(id) => id in g.parkedInputs
    case HeartbeatReason(_) => false
  }

  predicate AllParked(g: GateState, reasons: seq<Reason>) {
    forall i | 0 <= i < |reasons| :: ParkedReason(g, reasons[i])
  }

  lemma NumbersDoNotPark(g: GateState, h: GateState, reasons: seq<Reason>)
    requires h.parkedCalls == g.parkedCalls && h.parkedInputs == g.parkedInputs
    ensures AllParked(h, reasons) == AllParked(g, reasons)
  {
    assert forall r :: ParkedReason(h, r) == ParkedReason(g, r);
  }

  function Observe(g: GateState, d: Delta): GateState {
    match d.kind
    case Text(text) =>
      var sofar := if d.seqNo in g.partial && d.seqNo in g.partialAttempt && g.partialAttempt[d.seqNo] == d.attempt
                   then g.partial[d.seqNo] else "";
      g.(partial := g.partial[d.seqNo := sofar + text],
      partialAttempt := g.partialAttempt[d.seqNo := d.attempt])
    case Served(model) => g.(served := g.served[d.seqNo := model])
    case Created(id) => g.(created := g.created[d.seqNo := id])
    case _ => g
  }

  /** The first locked section of Respond. */
  function Begin(g: GateState, reasons: seq<Reason>, mutedId: ResponseId): (r: (GateState, Admission)) {
    var q := g.seqNo + 1;
    if g.parked && AllParked(g, reasons) then
      (g.(seqNo := q, records := g.records[mutedId := Record(q, Muted, 0)]),
       Answered(Response(mutedId, [], StopComplete)))
    else
      (g.(seqNo := q,
       parked := false,
       parkedCalls := if g.parked then {} else g.parkedCalls,
       parkedInputs := if g.parked then {} else g.parkedInputs,
       inflight := true,
       inflightSeq := q,
       providerCalls := g.providerCalls + 1),
       Forwarded(q))
  }

  /** What the inner adapter came back with, and the facts Respond looks at after it. */
  datatype InnerResult = InnerResult(ctxDone: bool, failed: bool, response: Response, synthetic: ResponseId, model: nat)

  function OrElse(id: nat, fallback: nat): nat {
    if id != NO_ID then id else fallback
  }

  function Get(m: map<nat, nat>, k: nat): nat {
    if k in m then m[k] else NO_ID
  }

  /** The text kept for request `q` so far. */
  function Kept(g: GateState, q: nat): string {
    if q in g.partial then g.partial[q] else ""
  }

  function Forgotten(g: GateState, q: nat): GateState {
    g.(inflight := false, partial := g.partial - {q}, partialAttempt := g.partialAttempt - {q},
    served := g.served - {q}, created := g.created - {q})
  }

  /** The rest of Respond for the request numbered `q`. */
  function End(g: GateState, q: nat, r: InnerResult): (GateState, Reply) {
    var text := Kept(g, q);
    var model := OrElse(Get(g.served, q), r.model);
    var created := Get(g.created, q);
    var g1 := Forgotten(g, q);
    if r.ctxDone then (g1, Superseded)
    else if g.userStop == q then
      var id := OrElse(created, r.synthetic);
      (g1.(records := g1.records[id := Record(q, Cancelled, model)]),
       Reply(Response(id, if text == "" then [] else [Message(text)], StopComplete), Cancelled))
    else if r.failed then
      (g1.(records := g1.records[r.synthetic := Record(q, Errored, model)]),
       Reply(Response(r.synthetic, [], StopComplete), Errored))
    else
      var id := OrElse(OrElse(r.response.id, created), r.synthetic);
      (g1.(records := g1.records[id := Record(q, Provider, model)]),
       Reply(r.response.(id := id), Provider))
  }

  /** Whatever a request comes back with, only the list of answers tells the outcomes apart. */
  lemma EndForgets(g: GateState, q: nat, r: InnerResult)
    ensures End(g, q, r).0 == Forgotten(g, q).(records := End(g, q, r).0.records)
  {
    var h, records := Forgotten(g, q), End(g, q, r).0.records;
    assert End(g, q, r).0 == if r.ctxDone then h else h.(records := records);
  }

  class Gate {
    var seqNo: nat
    var parked: bool
    var parkedCalls: set<CallId>
    var parkedInputs: set<InputId>
    var inflight: bool
    var inflightSeq: nat
    var userStop: nat
    var partial: map<nat, string>
    var partialAttempt: map<nat, nat>
    var served: map<nat, nat>
    var created: map<nat, ResponseId>
    var records: map<ResponseId, Record>
    var providerCalls: nat

    function State(): GateState
      reads this
    {
      GateState(seqNo, parked, parkedCalls, parkedInputs, inflight, inflightSeq, userStop,
                partial, partialAttempt, served, created, records, providerCalls)
    }

    constructor ()
      ensures State() == OPEN
    {
      seqNo, parked, parkedCalls, parkedInputs, inflight, inflightSeq, userStop := 0, false, {}, {}, false, 0, 0;
      partial, partialAttempt, served, created, records, providerCalls := map[], map[], map[], map[], map[], 0;
    }

    method Park(calls: seq<CallId>, inputs: seq<InputId>)
      modifies `parked, `parkedCalls, `parkedInputs
      ensures State() == ParkThese(old(State()), set c | c in calls, set i | i in inputs)
    {
      parked := true;
      for k := 0 to |calls|
        invariant parked
        invariant parkedCalls == old(parkedCalls) + set c | c in calls[..k]
        invariant parkedInputs == old(parkedInputs)
      {
        parkedCalls := parkedCalls + {calls[k]};
      }
      assert calls[..|calls|] == calls;
      for k := 0 to |inputs|
        invariant parked && parkedCalls == old(parkedCalls) + set c | c in calls
        invariant parkedInputs == old(parkedInputs) + set i | i in inputs[..k]
      {
        parkedInputs := parkedInputs + {inputs[k]};
      }
      assert inputs[..|inputs|] == inputs;
    }

    method CancelInflight()
      modifies `userStop
      ensures State() == StopInflight(old(State()))
    {
      if inflight {
        userStop := inflightSeq;
      }
    }

    method ObserveDelta(d: Delta)
      modifies this
      ensures State() == Observe(old(State()), d)
    {
      match d.kind
      case Text(text) =>
        if d.seqNo !in partial || d.seqNo !in partialAttempt || partialAttempt[d.seqNo] != d.attempt {
          partialAttempt := partialAttempt[d.seqNo := d.attempt];
          partial := partial[d.seqNo := ""];
        }
        partial := partial[d.seqNo := partial[d.seqNo] + text];
      case Served(model) => served := served[d.seqNo := model];
      case Created(id) => created := created[d.seqNo := id];
      case _ =>
    }

    method AllParkedLocked(reasons: seq<Reason>) returns (all: bool)
      ensures all == AllParked(State(), reasons)
    {
      for k := 0 to |reasons|
        invariant forall i | 0 <= i < k :: ParkedReason(State(), reasons[i])
      {
        match reasons[k]
        case CallReason(id) => if id !in parkedCalls { return false; }
        case InputReason(id) => if id !in parkedInputs { return false; }
        case HeartbeatReason(_) => return false;
      }
      return true;
    }

    /** Respond up to the point where it leaves the lock: muted, or on its way to the provider. */
    method RespondBegin(reasons: seq<Reason>, mutedId: ResponseId) returns (admission: Admission)
      modifies this
      ensures (State(), admission) == Begin(old(State()), reasons, mutedId)
    {
      seqNo := seqNo + 1;
      if parked {
        var all := AllParkedLocked(reasons);
        NumbersDoNotPark(old(State()), State(), reasons);
        if all {
          records := records[mutedId := Record(seqNo, Muted, 0)];
          return Answered(Response(mutedId, [], StopComplete));
        }
        parked := false;
        parkedCalls := {};
        parkedInputs := {};
      }
      inflight, inflightSeq := true, seqNo;
      providerCalls := providerCalls + 1;
      return Forwarded(seqNo);
    }

    /** The second locked section of Respond: nothing is in flight, the request's notes are taken. */
    method TakeNotes(q: nat) returns (text: string, model: nat, announced: ResponseId)
      modifies this
      ensures State() == Forgotten(old(State()), q)
      ensures text == Kept(old(State()), q)
      ensures model == Get(old(served), q) && announced == Get(old(created), q)
    {
      inflight := false;
      text, model, announced := "", NO_ID, NO_ID;
      if q in partial {
        text := partial[q];
      }
      partial := partial - {q};
      partialAttempt := partialAttempt - {q};
      if q in served {
        model := served[q];
      }
      served := served - {q};
      if q in created {
        announced := created[q];
      }
      created := created - {q};
    }

    method Remember(id: ResponseId, record: Record)
      modifies `records
      ensures State() == old(State()).(records := old(records)[id := record])
    {
      records := records[id := record];
    }

    /** Respond from the inner adapter's return to its own. Only the coordinator's own context
        surfaces as an error; a stop or a provider failure is answered. */
    method RespondEnd(q: nat, r: InnerResult) returns (reply: Reply)
      modifies this
      ensures (State(), reply) == End(old(State()), q, r)
      ensures reply.Superseded? <==> r.ctxDone
    {
      var stopped := userStop == q;
      var text, model, announced := TakeNotes(q);
      if model == NO_ID {
        model := r.model;
      }
      if r.ctxDone {
        return Superseded;
      }
      if stopped {
        var id := announced;
        if id == NO_ID {
          id := r.synthetic;
        }
        Remember(id, Record(q, Cancelled, model));
        return Reply(Response(id, if text == "" then [] else [Message(text)], StopComplete), Cancelled);
      }
      if r.failed {
        Remember(r.synthetic, Record(q, Errored, model));
        return Reply(Response(r.synthetic, [], StopComplete), Errored);
      }
      var id := r.response.id;
      if id == NO_ID {
        id := announced;
      }
      if id == NO_ID {
        id := r.synthetic;
      }
      Remember(id, Record(q, Provider, model));
      return Reply(r.response.(id := id), Provider);
    }
  }
}
