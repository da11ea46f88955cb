/** What the session runtime (internal/runtime/runtime.go) keeps, and what each of its locked
    sections and actor events does to it. */
module SessionSteps {
  import opened Harness
  import opened Mirrors
  import opened Gates
  import opened Ops
  import opened Projection

  datatype StopReason = EndTurn | MaxTokens | Refusal | StopCancelled

  datatype Failure = ProviderFailed(code: nat) | CoordinatorStopped(code: nat) | SubmitFailed | TurnAborted

  /** One ACP prompt turn. A turn is known by its position in the list of all turns, which
      stands for the pointer identity the source compares. */
  datatype TurnState = TurnState(
    inputId: InputId,
    unobserved: set<InputId>,
    steers: seq<InputId>,
    cancelling: bool,
    clientCancelled: bool,
    flushed: bool,
    waitCalls: set<CallId>,
    stop: Option<StopReason>,
    err: Option<Failure>,
    finished: bool)

  datatype TurnResult = TurnResult(stop: Option<StopReason>, err: Option<Failure>, clientCancelled: bool)

  /** What session/prompt is answered with. */
  datatype Answer = StoppedWith(reason: Option<StopReason>) | FailedWith(failure: Failure)

  /** turnResult.response. */
  function Respond(r: TurnResult): Answer {
    var stop := if r.clientCancelled then Some(StopCancelled) else r.stop;
    var err := if r.clientCancelled then None
               else if r.err.None? && r.stop == Some(StopCancelled) then Some(TurnAborted)
               else r.err;
    if err.Some? then FailedWith(err.value) else StoppedWith(stop)
  }

  datatype Turns = Turns(all: seq<TurnState>, current: Option<nat>, answers: seq<(nat, TurnResult)>)
  {
    /** r.turn, when there is one. */
    function Now(): Option<TurnState> {
      if current.Some? && current.value < |all| then Some(all[current.value]) else None
    }

    /** The turn abortTurn, Steer and evaluate act on. */
    predicate Running() {
      Now().Some? && !Now().value.finished
    }

    function Put(t: TurnState): Turns {
      if Now().Some? then this.(all := all[current.value := t]) else this
    }

    /** finishLocked. */
    function Finish(k: nat, r: TurnResult): Turns {
      if k >= |all| || all[k].finished then this
      else Turns(all[k := all[k].(finished := true)],
                 if current == Some(k) then None else current,
                 answers + [(k, r.(clientCancelled := all[k].clientCancelled))])
    }
  }

  /** Lookups for the projector and the policy. */
  datatype Index = Index(
    opCall: map<OpId, CallId>,
    calls: set<CallId>,
    inputs: set<InputId>,
    cancelledCalls: set<CallId>,
    refuseNew: bool)
  {
    function CallOf(op: OpId): CallId {
      if op in opCall then opCall[op] else NO_ID
    }

    /** index, but for what it parks in the gate. */
    function Add(item: Item): Index {
      match item
      case Input(id, External) => this.(inputs := inputs + {id})
      case ModelResponse(_, response) =>
        this.(calls := calls + CallIds(response.output),
        cancelledCalls := if refuseNew then cancelledCalls + CallIds(response.output) else cancelledCalls)
      case CallStatus(status) =>
        this.(opCall := opCall + map op | op in OpIds(status.operations) :: status.callId)
      case _ => this
    }
  }

  /** What the client has been shown of tool calls. */
  datatype View = View(announced: set<CallId>, started: set<CallId>, reported: set<CallId>, sent: seq<Update>)
  {
    /** announce: the pending tool_call, once, for a known call. */
    function Announce(calls: set<CallId>, id: CallId): View {
      if id in calls && id !in announced
      then this.(announced := announced + {id}, sent := sent + [CallStart(id)])
      else this
    }

    function Send(update: Update): View {
      this.(sent := sent + [update])
    }

    /** A final update, unless the call already had one. */
    function Report(calls: set<CallId>, update: Update): View {
      if update.id in reported then this
      else this.(reported := reported + {update.id}).Announce(calls, update.id).Send(update)
    }

    /** projectOperation for an operation of call `id` seen awaiting. */
    function Start(calls: set<CallId>, id: CallId): View {
      if id == NO_ID || id in started || id in reported then this
      else this.(started := started + {id}).Announce(calls, id).Send(CallProgress(id))
    }

    /** The tail of the flush event: a failed update for every call not yet reported. */
    function ReportAll(calls: set<CallId>, ids: seq<CallId>, byClient: bool): View {
      if ids == [] then this
      else ReportAll(calls, ids[..|ids| - 1], byClient).Report(calls, CallFailed(ids[|ids| - 1], byClient))
    }
  }

  datatype Event =
    | EvItem(item: Item)
    | EvDelta(delta: Delta)
    | EvOp(op: Operation)
    | EvPermission(asked: Operation)
    | EvModelError(code: nat)
    | EvRunExit(gen: nat, failed: Option<nat>)
    | EvWake
    | EvCancelGrace(turn: nat)
    | EvCancelFlush(turn: nat)

  datatype TurnTimer = GraceTimer(turn: nat) | FlushTimer(turn: nat)

  datatype Session = Session(
    gate: GateState,
    ops: OpsState,
    sync: MirrorState,
    am: MirrorState,
    turns: Turns,
    index: Index,
    view: View,
    events: seq<Event>,
    timers: set<TurnTimer>,
    gen: Option<nat>,
    alwaysAllow: bool,
    alwaysReject: bool)

  // ---- the coordinator's side ----

  /** What index parks: the calls of a response that raced a cancel. */
  function ParkRaced(g: GateState, ix: Index, item: Item): GateState {
    if item.ModelResponse? && ix.refuseNew && CallIds(item.response.output) != {}
    then ParkThese(g, CallIds(item.response.output), {}) else g
  }

  /** observe. */
  function Observed(s: Session, item: Item): Session {
    s.(sync := ApplyItem(s.sync, item), index := s.index.Add(item),
    gate := ParkRaced(s.gate, s.index, item), events := s.events + [EvItem(item)])
  }

  datatype PermissionMode = Auto | AskAlways | Allowlist

  /** policy. */
  function Policy(s: Session, mode: PermissionMode, op: Operation): Verdict {
    if s.index.CallOf(op.id) in s.index.cancelledCalls then Deny
    else if !op.shell || mode == Auto || s.alwaysAllow then Allow
    else if s.alwaysReject then Deny
    else if mode == Allowlist && op.listed then Allow
    else Ask
  }

  /** A step of the operation manager; Tap posts the snapshot it shows. */
  function WithOps(s: Session, m: OpsState): Session {
    s.(ops := m,
    events := s.events + if |m.tapped| > |s.ops.tapped| then [EvOp(m.tapped[|m.tapped| - 1])] else [])
  }

  // ---- opening ----

  const NO_INDEX := Index(map[], {}, {}, {}, false)

  function IndexAll(ix: Index, log: seq<Item>): Index {
    if log == [] then ix else IndexAll(ix, log[..|log| - 1]).Add(log[|log| - 1])
  }

  /** Open on an existing log: both mirrors seeded, what an interrupted turn left is parked. */
  function Reopened(log: seq<Item>): Session {
    var mirror := Fold(log);
    var ix := IndexAll(NO_INDEX, log);
    var gate := if mirror.reasons != [] || mirror.outstanding != map[]
                then ParkThese(OPEN, mirror.PendingCalls(), ix.inputs) else OPEN;
    Session(gate, IDLE, mirror, mirror, Turns([], None, []), ix, View({}, {}, {}, []), [], {}, None, false, false)
  }

  // ---- the client's side ----

  function AbortReason(t: TurnState): string {
    if t.clientCancelled then "Cancelled by the user" else "Aborted: the model request failed"
  }

  /** The first section of CancelTurn. */
  function MarkCancelled(s: Session): Session {
    if s.turns.Running()
    then s.(turns := s.turns.Put(s.turns.Now().value.(clientCancelled := true))) else s
  }

  /** ops.Cancel for each operation in turn. */
  function CancelOps(s: Session, ids: seq<OpId>, reason: string): Session {
    if ids == [] then s
    else
      var s1 := CancelOps(s, ids[..|ids| - 1], reason);
      WithOps(s1, CancelNow(s1.ops, ids[|ids| - 1], reason))
  }

  predicate Abortable(ts: Turns) {
    ts.Running() && !ts.Now().value.cancelling
  }

  /** abortTurn up to its calls of ops.Cancel, which run outside the lock. */
  function AbortMarks(s: Session): Session {
    if !Abortable(s.turns) then s
    else
      var t := s.turns.Now().value;
      var running := s.sync.outstanding.Keys;
      s.(turns := s.turns.Put(t.(cancelling := true, waitCalls := t.waitCalls + running, steers := [])),
      index := s.index.(refuseNew := true, cancelledCalls := s.index.cancelledCalls + running),
      gate := StopInflight(ParkThese(s.gate, s.sync.PendingCalls(), s.index.inputs + t.unobserved)))
  }

  /** The end of abortTurn: the actor is woken and the grace timer starts. */
  function AbortEnds(s: Session, k: nat): Session {
    s.(events := s.events + [EvWake], timers := s.timers + {GraceTimer(k)})
  }

  /** abortTurn undisturbed; `ids` lists the operations of the running calls in the order the
      source's map iteration meets them. */
  function Aborted(s: Session, ids: seq<OpId>): Session {
    if !Abortable(s.turns) then s
    else AbortEnds(CancelOps(AbortMarks(s), ids, AbortReason(s.turns.Now().value)), s.turns.current.value)
  }

  /** `ids` enumerates the operations abortTurn cancels, should it run now. */
  ghost predicate Enumerates(ids: seq<OpId>, s: Session) {
    forall op :: op in ids <==> op in s.sync.PendingOps()
  }

  datatype Admittance = Refused | Queued | Interrupting(gen: nat)

  /** Steer's locked section. */
  function Steered(s: Session, id: InputId, interrupt: bool): (Session, Admittance) {
    if !Abortable(s.turns) then (s, Refused)
    else
      var t := s.turns.Now().value;
      var t1 := t.(unobserved := t.unobserved + {id});
      if !interrupt then
        (s.(turns := s.turns.Put(t1.(steers := t.steers + [id])), events := s.events + [EvWake]), Queued)
      else
        (s.(turns := s.turns.Put(t1)),
         if s.gen.Some? then Interrupting(s.gen.value) else Refused)
  }

  function NewTurn(id: InputId): TurnState {
    TurnState(id, {id}, [], false, false, false, {}, None, None, false)
  }

  /** Prompt's locked section, once no turn is running: None acknowledges a redelivered prompt. */
  function Prompted(s: Session, id: InputId): (Session, Option<nat>) {
    if id in s.index.inputs then (s, None)
    else
      (s.(turns := s.turns.(all := s.turns.all + [NewTurn(id)], current := Some(|s.turns.all|)),
       index := s.index.(refuseNew := false, cancelledCalls := {})),
       Some(|s.turns.all|))
  }

  // ---- the actor ----

  /** bookkeep. */
  function Bookkept(t: TurnState, item: Item): TurnState {
    match item
    case Input(id, _) => t.(unobserved := t.unobserved - {id})
    case ModelResponse(_, response) =>
      (match response.stop
       case StopMaxOutputTokens => t.(stop := Some(MaxTokens))
       case StopRefused => t.(stop := Some(Refusal))
       case StopComplete => t)
    case CallStatus(status) => if Finishes(status) then t.(waitCalls := t.waitCalls - {status.callId}) else t
    case _ => t
  }

  /** projectLive, as far as tool calls go: a response announces its calls in order. */
  function AnnounceAll(v: View, calls: set<CallId>, output: seq<Output>): View {
    if output == [] then v
    else
      var v1 := AnnounceAll(v, calls, output[..|output| - 1]);
      if output[|output| - 1].ToolCall? then v1.Announce(calls, output[|output| - 1].id) else v1
  }

  function ProjectedLive(v: View, calls: set<CallId>, item: Item): View {
    match item
    case ModelResponse(_, response) => AnnounceAll(v, calls, response.output)
    case CallStatus(status) =>
      if Finishes(status) then v.Report(calls, CallResult(status.callId, ResultFailed(status))) else v
    case _ => v
  }

  function HandledItem(s: Session, item: Item): Session {
    s.(am := ApplyItem(s.am, item), view := ProjectedLive(s.view, s.index.calls, item),
    turns := if s.turns.Now().Some? then s.turns.Put(Bookkept(s.turns.Now().value, item)) else s.turns)
  }

  /** The first section of a model error: it is recorded on the running turn. */
  function Noted(s: Session, code: nat): Session {
    if s.turns.Running()
    then s.(turns := s.turns.Put(s.turns.Now().value.(err := Some(ProviderFailed(code))))) else s
  }

  /** A model error makes the actor abort the turn. */
  predicate ErrorAborts(s: Session) {
    Abortable(s.turns) && s.sync.outstanding != map[]
  }

  /** A model error up to the calls of ops.Cancel it may lead to. */
  function HandledError(s: Session, code: nat): Session {
    if ErrorAborts(s) then AbortMarks(Noted(s, code)) else Noted(s, code)
  }

  function HandledExit(s: Session, gen: nat, failed: Option<nat>): Session {
    s.(gen := if s.gen == Some(gen) then None else s.gen,
    turns := if failed.None? || s.turns.Now().None? then s.turns
             else s.turns.Finish(s.turns.current.value,
                    TurnResult(if s.turns.Now().value.cancelling then Some(StopCancelled) else None,
                               Some(CoordinatorStopped(failed.value)), false)))
  }

  /** projectOperation. */
  function HandledOperation(s: Session, op: Operation): Session {
    if op.status != Awaiting then s else s.(view := s.view.Start(s.index.calls, s.index.CallOf(op.id)))
  }

  predicate LiveTurn(ts: Turns, k: nat) {
    ts.current == Some(k) && ts.Running()
  }

  /** The flush event; `calls` lists the calls still waited for in map order. */
  function HandledFlush(s: Session, k: nat, calls: seq<CallId>): Session {
    if s.turns.current != Some(k) || s.turns.Now().None? then s
    else
      var t := s.turns.Now().value;
      s.(turns := s.turns.Put(t.(waitCalls := {}, flushed := true)),
      view := s.view.ReportAll(s.index.calls, calls, t.clientCancelled))
  }

  /** handle, up to the calls of ops.Cancel an abort leads to. `calls` fixes the order of the
      flush event's map iteration. */
  function Handled(s: Session, ev: Event, calls: seq<CallId>): Session {
    match ev
    case EvItem(item) => HandledItem(s, item)
    case EvDelta(_) => s
    case EvOp(op) => HandledOperation(s, op)
    case EvPermission(op) => s.(view := s.view.Announce(s.index.calls, s.index.CallOf(op.id)))
    case EvModelError(code) => HandledError(s, code)
    case EvRunExit(gen, failed) => HandledExit(s, gen, failed)
    case EvWake => s
    case EvCancelGrace(k) => if LiveTurn(s.turns, k) then s.(timers := s.timers + {FlushTimer(k)}) else s
    case EvCancelFlush(k) => HandledFlush(s, k, calls)
  }

  /** handle undisturbed; `ids` fixes the order of the abort's map iterations. */
  function HandledWhole(s: Session, ev: Event, ids: seq<OpId>, calls: seq<CallId>): Session {
    if ev.EvModelError? && ErrorAborts(s)
    then AbortEnds(CancelOps(Handled(s, ev, calls), ids, AbortReason(s.turns.Now().value)), s.turns.current.value)
    else Handled(s, ev, calls)
  }

  /** The orders the event's map iterations may take in state `s`. */
  ghost predicate Orders(s: Session, ev: Event, ids: seq<OpId>, calls: seq<CallId>) {
    && (ev.EvModelError? && ErrorAborts(s) ==> Enumerates(ids, s))
    && (ev.EvCancelFlush? && s.turns.current == Some(ev.turn) && s.turns.Now().Some? ==>
          forall c :: c in calls <==> c in s.turns.Now().value.waitCalls)
  }

  datatype Verdicts = Wait | AnswerCancelled | SubmitSteers | AnswerDone

  /** Which branch evaluate takes. */
  function Judge(s: Session): Verdicts {
    if !s.turns.Running() then Wait
    else
      var t := s.turns.Now().value;
      if t.cancelling then
        (if t.waitCalls == {} && (!s.am.inflight || t.flushed) then AnswerCancelled else Wait)
      else if t.steers != [] && !s.am.inflight && s.gen.Some? then SubmitSteers
      else if s.am.Quiescent() && t.unobserved == {} && t.steers == [] then AnswerDone
      else Wait
  }

  /** evaluate; the steers are those it goes on to submit, in order. */
  function Evaluated(s: Session): (Session, seq<InputId>) {
    match Judge(s)
    case Wait => (s, [])
    case AnswerCancelled =>
      (s.(turns := s.turns.Finish(s.turns.current.value,
                     TurnResult(Some(StopCancelled), s.turns.Now().value.err, false))), [])
    case SubmitSteers =>
      (s.(turns := s.turns.Put(s.turns.Now().value.(steers := []))), s.turns.Now().value.steers)
    case AnswerDone =>
      var t := s.turns.Now().value;
      (s.(turns := s.turns.Finish(s.turns.current.value,
                     TurnResult(if t.stop.Some? then t.stop else Some(EndTurn), t.err, false))), [])
  }
}
