/** internal/ops: the operation manager decorator. A ready operation is forwarded, held for an
    approval, or answered with a synthesised terminal snapshot; the newest snapshot of every
    operation is remembered and emitted again when a new generation adds it a second time.
    Locked sections and what runs after them are separate, as they are in the source. */
module Ops {
  import opened Harness

  datatype Verdict = Allow | Ask | Deny

  datatype Timer = Limit | KillGrace

  datatype OpsState = OpsState(
    held: map<OpId, Operation>,
    latest: map<OpId, Operation>,
    timers: map<OpId, Timer>,
    queue: seq<Operation>,        // snapshots pushed and not yet delivered
    delivered: seq<Operation>,    // snapshots handed to the coordinator
    tapped: seq<Operation>,       // snapshots shown to Tap
    asked: seq<OpId>,             // operations Ask was called for
    inner: seq<OpId>,             // operations the inner manager accepted
    cancels: seq<OpId>,           // inner.Cancel calls
    killed: seq<OpId>)            // Kill calls

  const IDLE := OpsState(map[], map[], map[], [], [], [], [], [], [], [])

  /** What a locked section leaves to be done outside the lock. `invented` marks a snapshot the
      decorator made up; `decided` marks a forward that an approval started. */
  datatype Action =
    | Nothing
    | Emission(snapshot: Operation, invented: bool)
    | Forwarding(op: Operation, decided: bool)

  function TerminalSnapshot(op: Operation, status: OpStatus, reason: string): Operation {
    if op.shell then op.(status := status, note := reason) else op.(status := status)
  }

  function Emit(m: OpsState, op: Operation): OpsState {
    m.(latest := m.latest[op.id := op],
    timers := if op.status.Terminal() then m.timers - {op.id} else m.timers,
    tapped := m.tapped + [op],
    queue := m.queue + [op])
  }

  /** The locked section of Add; `verdict` is what Policy says of a ready operation. */
  function AddLocked(m: OpsState, op: Operation, verdict: Verdict, reason: string, canAsk: bool): (OpsState, Action) {
    if op.id in m.held then (m, Nothing)
    else if op.id in m.latest then (m, Emission(m.latest[op.id], false))
    else
      var m1 := m.(latest := m.latest[op.id := op]);
      if op.status != Ready then (m1, Forwarding(op, false))
      else if verdict == Deny then (m1, Emission(TerminalSnapshot(op, Canceled, reason), true))
      else if verdict == Ask && canAsk then
        (m1.(held := m1.held[op.id := op], asked := m1.asked + [op.id]), Nothing)
      else (m1, Forwarding(op, false))
  }

  /** The locked section of Decide. */
  function DecideLocked(m: OpsState, id: OpId, allow: bool, reason: string): (OpsState, Action) {
    if id !in m.held then (m, Nothing)
    else
      (m.(held := m.held - {id}),
       if allow then Forwarding(m.held[id], true)
       else Emission(TerminalSnapshot(m.held[id], Canceled, reason), true))
  }

  /** What runs outside the lock. A forward the inner manager refuses is answered with a failed
      snapshot if an approval started it; otherwise Add returns the error. */
  function Perform(m: OpsState, a: Action, accepted: bool, timed: bool): OpsState {
    match a
    case Nothing => m
    case Emission(snapshot, _) => Emit(m, snapshot)
    case Forwarding(op, decided) =>
      if accepted then
        m.(inner := m.inner + [op.id], timers := if timed then m.timers[op.id := Limit] else m.timers)
      else if decided then Emit(m, TerminalSnapshot(op, Failed, "start operation"))
      else m
  }

  /** Cancel: a held operation is answered; an ended one is left alone; others are passed on. */
  function CancelNow(m: OpsState, id: OpId, reason: string): OpsState {
    if id in m.held then
      var (m1, a) := DecideLocked(m, id, false, "canceled before approval: " + reason);
      Perform(m1, a, false, false)
    else if id in m.latest && m.latest[id].status.Terminal() then m
    else m.(cancels := m.cancels + [id])
  }

  function Feed(m: OpsState): OpsState {
    if m.queue == [] then m else m.(delivered := m.delivered + [m.queue[0]], queue := m.queue[1..])
  }

  /** The limit timer's callback. */
  function LimitFires(m: OpsState, id: OpId, canKill: bool): OpsState {
    m.(cancels := m.cancels + [id],
    timers := if canKill && id in m.timers then m.timers[id := KillGrace] else m.timers)
  }

  /** The kill timer's callback. */
  function KillFires(m: OpsState, id: OpId): OpsState {
    if id in m.timers then m.(timers := m.timers - {id}, killed := m.killed + [id]) else m
  }

  class Manager {
    const canAsk: bool
    const timed: bool
    const canKill: bool
    var held: map<OpId, Operation>
    var latest: map<OpId, Operation>
    var timers: map<OpId, Timer>
    var queue: seq<Operation>
    var delivered: seq<Operation>
    var tapped: seq<Operation>
    var asked: seq<OpId>
    var inner: seq<OpId>
    var cancels: seq<OpId>
    var killed: seq<OpId>

    function State(): OpsState
      reads this
    {
      OpsState(held, latest, timers, queue, delivered, tapped, asked, inner, cancels, killed)
    }

    constructor (canAsk: bool, timed: bool, canKill: bool)
      ensures State() == IDLE
      ensures this.canAsk == canAsk && this.timed == timed && this.canKill == canKill
    {
      this.canAsk, this.timed, this.canKill := canAsk, timed, canKill;
      held, latest, timers, queue, delivered, tapped := map[], map[], map[], [], [], [];
      asked, inner, cancels, killed := [], [], [], [];
    }

    method EmitSnapshot(op: Operation)
      modifies `latest, `timers, `tapped, `queue
      ensures State() == Emit(old(State()), op)
    {
      latest := latest[op.id := op];
      if op.status.Terminal() {
        timers := timers - {op.id};
      }
      tapped := tapped + [op];
      queue := queue + [op];
    }

    method Forward(op: Operation, decided: bool, accepted: bool) returns (ok: bool)
      modifies `inner, `timers
      ensures ok == accepted
      ensures accepted ==> State() == Perform(old(State()), Forwarding(op, decided), true, timed)
      ensures !accepted ==> State() == old(State())
    {
      if !accepted {
        return false;
      }
      inner := inner + [op.id];
      if timed {
        timers := timers[op.id := Limit];
      }
      return true;
    }

    /** Add, its locked section followed at once by what it leaves to be done. `accepted` is the
        inner manager's answer, should it be asked. */
    method Add(op: Operation, verdict: Verdict, reason: string, accepted: bool) returns (ok: bool)
      modifies this
      ensures var (m1, a) := AddLocked(old(State()), op, verdict, reason, canAsk);
              && State() == Perform(m1, a, accepted, timed)
              && ok == (a.Forwarding? ==> accepted)
    {
      if op.id in held {
        return true;
      }
      if op.id in latest {
        EmitSnapshot(latest[op.id]);
        return true;
      }
      latest := latest[op.id := op];
      if op.status == Ready {
        if verdict == Deny {
          EmitSnapshot(TerminalSnapshot(op, Canceled, reason));
          return true;
        }
        if verdict == Ask && canAsk {
          held := held[op.id := op];
          asked := asked + [op.id];
          return true;
        }
      }
      ok := Forward(op, false, accepted);
    }

    method Decide(id: OpId, allow: bool, reason: string, accepted: bool)
      modifies this
      ensures var (m1, a) := DecideLocked(old(State()), id, allow, reason);
              State() == Perform(m1, a, accepted, timed)
    {
      if id !in held {
        return;
      }
      var op := held[id];
      held := held - {id};
      if allow {
        var ok := Forward(op, true, accepted);
        if !ok {
          EmitSnapshot(TerminalSnapshot(op, Failed, "start operation"));
        }
        return;
      }
      EmitSnapshot(TerminalSnapshot(op, Canceled, reason));
    }

    method Cancel(id: OpId, reason: string)
      modifies this
      ensures State() == CancelNow(old(State()), id, reason)
    {
      if id in held {
        Decide(id, false, "canceled before approval: " + reason, false);
        return;
      }
      if id in latest && latest[id].status.Terminal() {
        return;
      }
      cancels := cancels + [id];
    }

    method FeedOne()
      modifies `queue, `delivered
      ensures State() == Feed(old(State()))
    {
      if queue != [] {
        delivered := delivered + [queue[0]];
        queue := queue[1..];
      }
    }

    method OnLimit(id: OpId)
      modifies `cancels, `timers
      ensures State() == LimitFires(old(State()), id, canKill)
    {
      cancels := cancels + [id];
      if canKill && id in timers {
        timers := timers[id := KillGrace];
      }
    }

    method OnKillGrace(id: OpId)
      modifies `killed, `timers
      ensures State() == KillFires(old(State()), id)
    {
      var running := id in timers;
      timers := timers - {id};
      if running {
        killed := killed + [id];
      }
    }
  }
}
