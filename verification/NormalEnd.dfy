/** What a turn that ends by itself guarantees: its prompt and its steers were submitted once,
    recorded, and answered. And which turns can no longer end that way. */
module NormalEnd {
  import opened Harness
  import opened Mirrors
  import opened MirrorLog
  import opened Ops
  import opened SessionSteps
  import opened SessionRuns
  import opened Replicas
  import Answers

  function Steers(ts: Turns): seq<InputId> {
    if ts.Now().Some? then ts.Now().value.steers else []
  }

  /** In how many places on its way to an inbox, or past it, an input is. */
  function Tally(m: Machine, id: InputId): nat {
    multiset(Steers(m.s.turns))[id] + (if id in m.transit then 1 else 0) +
    (if m.actor.Submitting? then multiset(m.actor.steers)[id] else 0) + multiset(m.submitted)[id]
  }

  /** No input is in two places, and none is anywhere before it is made. */
  ghost predicate Once(m: Machine) {
    forall id :: Tally(m, id) <= 1 && (id !in m.used ==> Tally(m, id) == 0)
  }

  /** Whose inputs the log holds. */
  ghost predicate Ledger(m: Machine) {
    && |m.accepted| == |m.s.turns.all|
    && (forall k | 0 <= k < |m.accepted| :: m.s.turns.all[k].inputId in m.accepted[k] && m.accepted[k] <= m.used)
    && (forall id | id in m.inbox :: id in m.submitted)
    && (forall j | 0 <= j < |m.log| && m.log[j].Input? && m.log[j].kind == External ::
          m.log[j].id in m.used &&
          forall k | 0 <= k < |m.accepted| && m.log[j].id in m.accepted[k] :: m.log[j].id in m.submitted)
    && (forall j | m.applied <= j < |m.log| && m.log[j].Input? && m.log[j].kind != External ::
          m.log[j].id in m.used && forall k | 0 <= k < |m.accepted| :: m.log[j].id !in m.accepted[k])
  }

  /** Each input of the current turn is still unobserved or the actor has seen its item. */
  ghost predicate Heard(m: Machine) {
    m.s.turns.Now().Some? && m.s.turns.current.value < |m.accepted| && m.applied <= |m.log| ==>
      forall id | id in m.accepted[m.s.turns.current.value] ::
        id in m.s.turns.Now().value.unobserved || Input(id, External) in m.log[..m.applied]
  }

  ghost predicate Books(m: Machine) {
    Replicated(m) && Once(m) && Ledger(m) && Heard(m)
  }

  // ---- what steps do to turns ----

  /** No turn begins, and the current one neither forgets an unobserved input nor gains a steer. */
  predicate Carries(a: Turns, b: Turns) {
    && |a.all| == |b.all|
    && (forall k | 0 <= k < |a.all| :: a.all[k].inputId == b.all[k].inputId)
    && (b.Now().Some? ==>
          && a.Now().Some? && a.current == b.current
          && a.Now().value.unobserved <= b.Now().value.unobserved
          && (b.Now().value.steers == a.Now().value.steers || b.Now().value.steers == []))
  }

  lemma FinishCarries(ts: Turns, k: nat, r: TurnResult)
    ensures Carries(ts, ts.Finish(k, r))
  {
  }

  lemma AbortCarries(s: Session)
    ensures Carries(s.turns, AbortMarks(s).turns)
  {
  }

  lemma ExitCarries(s: Session, gen: nat, failed: Option<nat>)
    ensures Carries(s.turns, HandledExit(s, gen, failed).turns)
  {
    if failed.Some? && s.turns.Now().Some? {
      FinishCarries(s.turns, s.turns.current.value,
                    TurnResult(if s.turns.Now().value.cancelling then Some(StopCancelled) else None,
                               Some(CoordinatorStopped(failed.value)), false));
    }
  }

  lemma ErrorCarries(s: Session, code: nat)
    ensures Carries(s.turns, HandledError(s, code).turns)
  {
    var s1 := Noted(s, code);
    assert Carries(s.turns, s1.turns);
    AbortCarries(s1);
  }

  lemma FlushCarries(s: Session, k: nat, calls: seq<CallId>)
    ensures Carries(s.turns, HandledFlush(s, k, calls).turns)
  {
  }

  lemma HandledCarries(s: Session, ev: Event, calls: seq<CallId>)
    requires !ev.EvItem?
    ensures Carries(s.turns, Handled(s, ev, calls).turns)
  {
    match ev
    case EvRunExit(gen, failed) => ExitCarries(s, gen, failed);
    case EvModelError(code) => ErrorCarries(s, code);
    case EvCancelFlush(k) => FlushCarries(s, k, calls);
    case _ =>
  }

  lemma EvaluatedCarries(s: Session)
    ensures Carries(s.turns, Evaluated(s).0.turns)
    ensures Evaluated(s).1 != [] ==> Evaluated(s).1 == Steers(s.turns) && Steers(Evaluated(s).0.turns) == []
  {
  }

  // ---- what one step does to the books ----

  /** A step that moves no input and appends nothing. */
  lemma QuietBooks(m: Machine, y: Machine)
    requires Once(m) && Ledger(m) && Heard(m) && Carries(m.s.turns, y.s.turns)
    requires y.log == m.log && y.applied == m.applied && y.inbox == m.inbox && y.transit == m.transit
    requires y.used == m.used && y.accepted == m.accepted && y.submitted == m.submitted
    requires y.actor == m.actor || !y.actor.Submitting?
    ensures Once(y) && Ledger(y) && Heard(y)
  {
    forall id
      ensures Tally(y, id) <= Tally(m, id)
    {
    }
  }

  lemma AsideBooks(m: Machine, step: Step)
    requires Once(m) && Ledger(m) && Heard(m) && Enabled(m, step)
    requires step.Permit? || step.Fire? || step.Stream? || step.EndRequest? || step.AddOp? || step.DoAction? ||
             step.PumpOp? || step.Deliver? || step.CancelNext? || step.EndAbort?
    ensures Once(After(m, step)) && Ledger(After(m, step)) && Heard(After(m, step))
  {
    var y := After(m, step);
    AsideLeavesInputs(m, step);
    QuietBooks(m, y);
  }

  lemma AsideLeavesInputs(m: Machine, step: Step)
    requires step.Permit? || step.Fire? || step.Stream? || step.EndRequest? || step.AddOp? || step.DoAction? ||
             step.PumpOp? || step.Deliver? || step.CancelNext? || step.EndAbort?
    ensures var y := After(m, step);
            && y.s.turns == m.s.turns && y.log == m.log && y.applied == m.applied && y.inbox == m.inbox
            && y.transit == m.transit && y.used == m.used && y.accepted == m.accepted && y.submitted == m.submitted
            && (y.actor == m.actor || !y.actor.Submitting?)
  {
  }

  lemma AppendBooks(m: Machine, item: Item)
    requires Replicated(m) && Once(m) && Ledger(m) && Heard(m)
    requires item.Input? ==> item.id in m.used
    requires item.Input? && item.kind == External ==> item.id in m.submitted
    requires item.Input? && item.kind != External ==> forall k | 0 <= k < |m.accepted| :: item.id !in m.accepted[k]
    ensures Once(Append(m, item)) && Ledger(Append(m, item)) && Heard(Append(m, item))
  {
    var y := Append(m, item);
    assert y.log[..m.applied] == m.log[..m.applied];
    assert forall id :: Tally(y, id) == Tally(m, id);
    assert y.log[|m.log|] == item;
  }

  /** Dropping the head of the inbox loses nothing the books speak of. */
  lemma PersistBooks(m: Machine)
    requires Books(m) && m.inbox != []
    ensures var y := After(m, Persist); Once(y) && Ledger(y) && Heard(y)
  {
    var m1 := m.(inbox := m.inbox[1..]);
    assert forall id :: Tally(m1, id) == Tally(m, id);
    var id := m.inbox[0];
    assert id in m.inbox;
    assert Tally(m, id) > 0;
    AppendBooks(m1, Input(m.inbox[0], External));
  }

  lemma ControlBooks(m: Machine, item: Item)
    requires Books(m) && Enabled(m, AppendItem(item))
    ensures var y := After(m, AppendItem(item)); Once(y) && Ledger(y) && Heard(y)
  {
    var m1 := m.(used := if item.Input? then m.used + {item.id} else m.used);
    assert forall id :: Tally(m1, id) == Tally(m, id);
    AppendBooks(m1, item);
  }

  lemma StartBooks(m: Machine, turnId: TurnId, mutedId: ResponseId)
    requires Books(m)
    ensures var y := Started(m, turnId, mutedId); Once(y) && Ledger(y) && Heard(y)
  {
    AppendBooks(m, Turn(turnId));
    QuietBooks(Append(m, Turn(turnId)), Started(m, turnId, mutedId));
  }

  lemma ItemTurns(s: Session, item: Item)
    ensures var t := HandledItem(s, item).turns;
            && |t.all| == |s.turns.all| && t.current == s.turns.current && Steers(t) == Steers(s.turns)
            && (forall k | 0 <= k < |t.all| :: t.all[k].inputId == s.turns.all[k].inputId)
            && (t.Now().Some? ==>
                  t.Now().value.unobserved == s.turns.Now().value.unobserved - if item.Input? then {item.id} else {})
  {
  }

  lemma PopItemBooks(m: Machine, ids: seq<OpId>, calls: seq<CallId>)
    requires Books(m) && m.s.events != [] && m.s.events[0].EvItem?
    ensures var y := Popped(m, ids, calls); Once(y) && Ledger(y) && Heard(y)
  {
    var item := m.s.events[0].item;
    ItemsHead(m.s.events);
    assert m.log[m.applied..][0] == m.log[m.applied] == item;
    ItemTurns(m.s.(events := m.s.events[1..]), item);
    var s1 := HandledItem(m.s.(events := m.s.events[1..]), item);
    var y := Popped(m, ids, calls);
    assert y.s.turns == s1.turns;
    ItemHeard(m, y, item);
    assert forall id :: Tally(y, id) <= Tally(m, id);
  }

  lemma ItemHeard(m: Machine, y: Machine, item: Item)
    requires Heard(m) && Ledger(m) && m.applied < |m.log| && m.log[m.applied] == item
    requires y.log == m.log && y.applied == m.applied + 1 && y.accepted == m.accepted
    requires y.s.turns.current == m.s.turns.current && |y.s.turns.all| == |m.s.turns.all|
    requires y.s.turns.Now().Some? ==>
               y.s.turns.Now().value.unobserved ==
               m.s.turns.Now().value.unobserved - if item.Input? then {item.id} else {}
    ensures Heard(y)
  {
    assert y.log[..y.applied] == m.log[..m.applied] + [item];
  }

  lemma PopBooks(m: Machine, step: Step)
    requires Books(m) && Enabled(m, step) && step.Pop?
    ensures var y := After(m, step); Once(y) && Ledger(y) && Heard(y)
  {
    if m.s.events[0].EvItem? {
      PopItemBooks(m, step.ids, step.calls);
    } else {
      HandledCarries(m.s.(events := m.s.events[1..]), m.s.events[0], step.calls);
      QuietBooks(m, After(m, step));
    }
  }

  lemma PromptBooks(m: Machine, id: InputId)
    requires Books(m) && Enabled(m, Prompt(id))
    ensures var y := TakePrompt(m, id); Once(y) && Ledger(y) && Heard(y)
  {
    if id !in m.s.index.inputs {
      var y := TakePrompt(m, id);
      forall other
        ensures Tally(y, other) == Tally(m, other) + if other == id then 1 else 0
      {
      }
    }
  }

  /** What Steer may have done: nothing, or one more input the turn waits for, in at most one
      place. */
  predicate SteerMoves(m: Machine, y: Machine, id: InputId) {
    var a, b := m.s.turns, y.s.turns;
    && y.log == m.log && y.applied == m.applied && y.inbox == m.inbox && y.actor == m.actor
    && y.used == m.used + {id} && y.submitted == m.submitted
    && a.current == b.current && |a.all| == |b.all|
    && (forall k | 0 <= k < |a.all| :: a.all[k].inputId == b.all[k].inputId)
    && ((Steers(b) == Steers(a) && y.transit.Keys <= m.transit.Keys + {id}) ||
        (Steers(b) == Steers(a) + [id] && y.transit == m.transit))
    && (y.accepted == m.accepted ||
        (a.current.Some? && a.current.value < |m.accepted| &&
         y.accepted == m.accepted[a.current.value := m.accepted[a.current.value] + {id}]))
    && (b.Now().Some? ==>
          && a.Now().Some?
          && (b.Now().value.unobserved == a.Now().value.unobserved + {id} ||
              (b.Now().value.unobserved == a.Now().value.unobserved && y.accepted == m.accepted)))
  }

  lemma SteerDoes(m: Machine, id: InputId, interrupt: bool)
    ensures SteerMoves(m, TakeSteer(m, id, interrupt), id)
  {
  }

  lemma SteerOnce(m: Machine, y: Machine, id: InputId)
    requires Once(m) && id !in m.used && SteerMoves(m, y, id)
    ensures Once(y)
  {
    forall other
      ensures Tally(y, other) <= Tally(m, other) + if other == id then 1 else 0
    {
    }
  }

  lemma SteerLedger(m: Machine, y: Machine, id: InputId)
    requires Ledger(m) && id !in m.used && SteerMoves(m, y, id)
    ensures Ledger(y)
  {
  }

  lemma SteerBooks(m: Machine, id: InputId, interrupt: bool)
    requires Books(m) && Enabled(m, Steer(id, interrupt))
    ensures var y := TakeSteer(m, id, interrupt); Once(y) && Ledger(y) && Heard(y)
  {
    var y := TakeSteer(m, id, interrupt);
    SteerDoes(m, id, interrupt);
    SteerOnce(m, y, id);
    SteerLedger(m, y, id);
  }

  /** Reaching an inbox, or being lost on the way. */
  lemma SubmitBooks(m: Machine, gen: nat, id: InputId)
    requires Ledger(m) && Heard(m) && Once(m.(submitted := m.submitted + [id]))
    ensures Once(Submit(m, gen, id)) && Ledger(Submit(m, gen, id)) && Heard(Submit(m, gen, id))
  {
    var more := m.(submitted := m.submitted + [id]);
    forall other
      ensures Tally(Submit(m, gen, id), other) <= Tally(more, other)
    {
    }
  }

  lemma ArriveOnce(m: Machine, id: InputId)
    requires Once(m) && id in m.transit
    ensures var m1 := m.(transit := m.transit - {id}); Once(m1) && Once(m1.(submitted := m1.submitted + [id]))
  {
    var m1 := m.(transit := m.transit - {id});
    var m2 := m1.(submitted := m1.submitted + [id]);
    forall other
      ensures Tally(m2, other) == Tally(m, other) && Tally(m1, other) <= Tally(m, other)
    {
    }
  }

  lemma SubmitSteerBooks(m: Machine, id: InputId)
    requires Books(m) && Enabled(m, SubmitSteer(id))
    ensures var y := SubmittedSteer(m, id); Once(y) && Ledger(y) && Heard(y)
  {
    ArriveOnce(m, id);
    SubmitBooks(m.(transit := m.transit - {id}), m.transit[id].gen, id);
  }

  lemma SubmitPromptBooks(m: Machine, id: InputId, ok: bool)
    requires Books(m) && Enabled(m, SubmitPrompt(id, ok))
    ensures var y := SubmittedPrompt(m, id, ok); Once(y) && Ledger(y) && Heard(y)
  {
    ArriveOnce(m, id);
    var m1 := m.(transit := m.transit - {id});
    var m2 := if ok then Ensure(m1) else m1;
    assert Steers(m2.s.turns) == Steers(m1.s.turns);
    forall other
      ensures Tally(m2, other) == Tally(m1, other)
      ensures Tally(m2.(submitted := m2.submitted + [id]), other) == Tally(m1.(submitted := m1.submitted + [id]), other)
    {
    }
    if ok && m2.s.gen.Some? && m2.live == m2.s.gen {
      SubmitBooks(m2, m2.s.gen.value, id);
    } else {
      FinishCarries(m2.s.turns, m.transit[id].turn, TurnResult(None, Some(SubmitFailed), false));
      QuietBooks(m2, SubmittedPrompt(m, id, ok));
    }
  }

  lemma EvaluateBooks(m: Machine)
    requires Books(m) && m.actor.MustEvaluate?
    ensures var y := EvaluatedStep(m); Once(y) && Ledger(y) && Heard(y)
  {
    EvaluatedCarries(m.s);
    var y := EvaluatedStep(m);
    forall id
      ensures Tally(y, id) <= Tally(m, id)
    {
    }
  }

  lemma NextOnce(m: Machine, m1: Machine)
    requires Once(m) && m.actor.Submitting? && m.actor.steers != []
    requires var rest := m.actor.steers[1..];
             m1 == m.(actor := if rest == [] then Resting else Submitting(m.actor.gen, rest))
    ensures Once(m1.(submitted := m1.submitted + [m.actor.steers[0]]))
  {
    var id, rest := m.actor.steers[0], m.actor.steers[1..];
    assert m.actor.steers == [id] + rest;
    forall other
      ensures Tally(m1.(submitted := m1.submitted + [id]), other) == Tally(m, other)
    {
    }
  }

  lemma SubmitNextBooks(m: Machine)
    requires Books(m) && Enabled(m, SubmitNext)
    ensures var y := SubmittedNext(m); Once(y) && Ledger(y) && Heard(y)
  {
    var id, rest := m.actor.steers[0], m.actor.steers[1..];
    var m1 := m.(actor := if rest == [] then Resting else Submitting(m.actor.gen, rest));
    NextOnce(m, m1);
    SubmitBooks(m1, m.actor.gen, id);
    assert SubmittedNext(m) == Submit(m1, m.actor.gen, id);
  }

  lemma ExitBooks(m: Machine, failed: Option<nat>)
    requires Books(m)
    ensures var y := Exited(m, failed); Once(y) && Ledger(y) && Heard(y)
  {
    var y := Exited(m, failed);
    forall id
      ensures Tally(y, id) <= Tally(m, id)
    {
    }
  }

  lemma MarkBooks(m: Machine)
    requires Books(m)
    ensures var y := After(m, Mark); Once(y) && Ledger(y) && Heard(y)
  {
    QuietBooks(m, After(m, Mark));
  }

  lemma ClientBooks(m: Machine, step: Step)
    requires Books(m) && Enabled(m, step)
    requires step.Prompt? || step.SubmitPrompt? || step.Mark? || step.Abort? || step.Steer? || step.SubmitSteer?
    ensures var y := After(m, step); Once(y) && Ledger(y) && Heard(y)
  {
    match step
    case Prompt(id) => PromptBooks(m, id);
    case SubmitPrompt(id, ok) => SubmitPromptBooks(m, id, ok);
    case Mark => MarkBooks(m);
    case Abort(_) =>
      AbortCarries(m.s);
      QuietBooks(m, After(m, step));
    case Steer(id, interrupt) => SteerBooks(m, id, interrupt);
    case SubmitSteer(id) => SubmitSteerBooks(m, id);
  }

  lemma ServerBooks(m: Machine, step: Step)
    requires Books(m) && Enabled(m, step)
    requires step.Pop? || step.Evaluate? || step.SubmitNext? || Appends(step) || step.Exit?
    ensures var y := After(m, step); Once(y) && Ledger(y) && Heard(y)
  {
    match step
    case Pop(_, _) => PopBooks(m, step);
    case Evaluate => EvaluateBooks(m);
    case SubmitNext => SubmitNextBooks(m);
    case Persist => PersistBooks(m);
    case AppendItem(item) => ControlBooks(m, item);
    case StartTurn(turnId, mutedId) => StartBooks(m, turnId, mutedId);
    case Exit(failed) => ExitBooks(m, failed);
  }

  lemma StepBooks(m: Machine, step: Step)
    requires Books(m) && Enabled(m, step)
    ensures Books(After(m, step))
  {
    StepReplicated(m, step);
    if step.Prompt? || step.SubmitPrompt? || step.Mark? || step.Abort? || step.Steer? || step.SubmitSteer? {
      ClientBooks(m, step);
    } else if step.Pop? || step.Evaluate? || step.SubmitNext? || Appends(step) || step.Exit? {
      ServerBooks(m, step);
    } else {
      AsideBooks(m, step);
    }
  }

  lemma {:induction false} RunBooks(m: Machine, steps: seq<Step>)
    requires Books(m) && Run(m, steps)
    ensures Books(Final(m, steps))
    decreases |steps|
  {
    if steps != [] {
      StepBooks(m, steps[0]);
      RunBooks(After(m, steps[0]), steps[1..]);
    }
  }

  lemma ReachedBooks(a: Machine, b: Machine)
    requires Books(a) && Reaches(a, b)
    ensures Books(b)
  {
    var steps :| Run(a, steps) && b == Final(a, steps);
    RunBooks(a, steps);
  }

  lemma {:induction false} IndexedInputs(ix: Index, log: seq<Item>, j: nat)
    requires j < |log| && log[j].Input? && log[j].kind == External
    ensures log[j].id in IndexAll(ix, log).inputs
  {
    if j < |log| - 1 {
      IndexedInputs(ix, log[..|log| - 1], j);
    }
  }

  lemma OpenedBooks(log: seq<Item>)
    ensures Books(Opened(log))
  {
    OpenedReplicated(log);
    forall j | 0 <= j < |log| && log[j].Input? && log[j].kind == External
      ensures log[j].id in Opened(log).used
    {
      IndexedInputs(NO_INDEX, log, j);
    }
  }

  // ---- the normal end ----

  /** `id` was submitted once, recorded, seen by the actor, and a later turn took it up. */
  ghost predicate TakenUp(m: Machine, id: InputId) {
    && multiset(m.submitted)[id] == 1 && m.applied <= |m.log|
    && exists j :: 0 <= j < NewestTurn(m.log[..m.applied]) && m.log[j] == Input(id, External)
  }

  lemma DoneMeansTakenUp(m: Machine, k: nat, id: InputId)
    requires Books(m) && Judge(m.s) == AnswerDone && m.s.turns.current == Some(k) && id in m.accepted[k]
    ensures Idle(m.log[..m.applied]) && TakenUp(m, id)
  {
    var a := m.log[..m.applied];
    QuiescentMeansIdle(a);
    assert Input(id, External) in a;
    var j :| 0 <= j < |a| && a[j] == Input(id, External);
    assert Wakes(a, j, InputReason(id));
    assert j != NewestTurn(a);
    assert m.log[j] == a[j];
    assert Tally(m, id) <= 1;
  }

  /** Normal-end soundness: in every run from any log, when evaluate ends a turn that nobody
      aborted, the items the actor has seen are idle (the newest request is answered, nothing is
      pending after it, every accepted call is settled), and the turn's prompt and every steer it
      took were each submitted exactly once, recorded, and followed by a request. */
  lemma NormalEndIsSound(log: seq<Item>, m: Machine, k: nat)
    requires Reaches(Opened(log), m)
    requires Judge(m.s) == AnswerDone && m.s.turns.current == Some(k)
    ensures m.applied <= |m.log| && Idle(m.log[..m.applied])
    ensures k < |m.accepted| && m.s.turns.all[k].inputId in m.accepted[k]
    ensures forall id | id in m.accepted[k] :: TakenUp(m, id)
  {
    OpenedBooks(log);
    ReachedBooks(Opened(log), m);
    forall id | id in m.accepted[k]
      ensures TakenUp(m, id)
    {
      DoneMeansTakenUp(m, k, id);
    }
    DoneMeansTakenUp(m, k, m.s.turns.all[k].inputId);
  }

  // ---- what a turn took stays taken ----

  lemma AcceptedKept(m: Machine, step: Step)
    ensures |m.accepted| <= |After(m, step).accepted|
    ensures forall k | 0 <= k < |m.accepted| :: m.accepted[k] <= After(m, step).accepted[k]
  {
  }

  lemma {:induction false} RunKeepsAccepted(m: Machine, steps: seq<Step>, k: nat, id: InputId)
    requires Run(m, steps) && k < |m.accepted| && id in m.accepted[k]
    ensures k < |Final(m, steps).accepted| && id in Final(m, steps).accepted[k]
    decreases |steps|
  {
    if steps != [] {
      AcceptedKept(m, steps[0]);
      RunKeepsAccepted(After(m, steps[0]), steps[1..], k, id);
    }
  }

  lemma SteerIsAccepted(m: Machine, id: InputId, interrupt: bool)
    requires Ledger(m) && !Steered(m.s, id, interrupt).1.Refused?
    ensures m.s.turns.Now().Some? && m.s.turns.current.value < |TakeSteer(m, id, interrupt).accepted|
    ensures id in TakeSteer(m, id, interrupt).accepted[m.s.turns.current.value]
  {
  }

  /** A steer the turn took, queued or interrupting, is submitted exactly once and answered
      before that turn ends by itself. */
  lemma SteerIsTakenUp(log: seq<Item>, m: Machine, id: InputId, interrupt: bool, y: Machine)
    requires Reaches(Opened(log), m) && Enabled(m, Steer(id, interrupt))
    requires !Steered(m.s, id, interrupt).1.Refused? && Reaches(TakeSteer(m, id, interrupt), y)
    requires Judge(y.s) == AnswerDone && y.s.turns.current == m.s.turns.current
    ensures TakenUp(y, id)
  {
    OpenedBooks(log);
    ReachedBooks(Opened(log), m);
    StepBooks(m, Steer(id, interrupt));
    SteerIsAccepted(m, id, interrupt);
    var later :| Run(TakeSteer(m, id, interrupt), later) && y == Final(TakeSteer(m, id, interrupt), later);
    SteerIsTakenUpFrom(TakeSteer(m, id, interrupt), m.s.turns.current.value, id, later);
  }

  lemma SteerIsTakenUpFrom(m: Machine, k: nat, id: InputId, later: seq<Step>)
    requires Books(m) && Run(m, later) && k < |m.accepted| && id in m.accepted[k]
    requires var y := Final(m, later); Judge(y.s) == AnswerDone && y.s.turns.current == Some(k)
    ensures TakenUp(Final(m, later), id)
  {
    RunBooks(m, later);
    RunKeepsAccepted(m, later, k, id);
    DoneMeansTakenUp(Final(m, later), k, id);
  }

  // ---- turns that can no longer end by themselves ----

  /** Turn `k`, while it is the current one, waits for an input that is on its way nowhere. */
  ghost predicate Stranded(m: Machine, k: nat, id: InputId) {
    && id in m.used && k < |m.s.turns.all|
    && id !in Steers(m.s.turns) && id !in m.transit && id !in m.inbox
    && (m.actor.Submitting? ==> id !in m.actor.steers)
    && (forall j | m.applied <= j < |m.log| && m.log[j].Input? :: m.log[j].id != id)
    && (m.s.turns.current == Some(k) && m.s.turns.Now().Some? ==> id in m.s.turns.Now().value.unobserved)
  }

  lemma QuietStranded(m: Machine, y: Machine, k: nat, id: InputId)
    requires Stranded(m, k, id) && Carries(m.s.turns, y.s.turns)
    requires y.log == m.log && y.applied == m.applied && m.used <= y.used
    requires forall other | other in y.inbox :: other in m.inbox || other in m.transit ||
               (m.actor.Submitting? && other in m.actor.steers)
    requires y.transit.Keys <= m.transit.Keys
    requires y.actor.Submitting? ==>
               forall other | other in y.actor.steers ::
                 other in Steers(m.s.turns) || (m.actor.Submitting? && other in m.actor.steers)
    ensures Stranded(y, k, id)
  {
  }

  lemma ClientStranded(m: Machine, step: Step, k: nat, id: InputId)
    requires Stranded(m, k, id) && Enabled(m, step)
    requires step.Prompt? || step.Mark? || step.Steer? || step.SubmitSteer?
    ensures Stranded(After(m, step), k, id)
  {
    if step.Steer? {
      SteerDoes(m, step.id, step.interrupt);
    }
  }

  lemma ArrivalStranded(m: Machine, other: InputId, k: nat, id: InputId)
    requires Stranded(m, k, id) && Enabled(m, SubmitPrompt(other, true))
    ensures Stranded(SubmittedPrompt(m, other, true), k, id)
  {
    QuietStranded(m, SubmittedPrompt(m, other, true), k, id);
  }

  lemma FailureStranded(m: Machine, other: InputId, k: nat, id: InputId)
    requires Stranded(m, k, id) && Enabled(m, SubmitPrompt(other, false))
    ensures Stranded(SubmittedPrompt(m, other, false), k, id)
  {
    FinishCarries(m.s.turns, m.transit[other].turn, TurnResult(None, Some(SubmitFailed), false));
    QuietStranded(m, SubmittedPrompt(m, other, false), k, id);
  }

  lemma SubmitStranded(m: Machine, other: InputId, ok: bool, k: nat, id: InputId)
    requires Stranded(m, k, id) && Enabled(m, SubmitPrompt(other, ok))
    ensures Stranded(SubmittedPrompt(m, other, ok), k, id)
  {
    if ok {
      ArrivalStranded(m, other, k, id);
    } else {
      FailureStranded(m, other, k, id);
    }
  }

  lemma ActorStranded(m: Machine, step: Step, k: nat, id: InputId)
    requires Stranded(m, k, id) && Enabled(m, step) && (step.Evaluate? || step.SubmitNext?)
    ensures Stranded(After(m, step), k, id)
  {
    if step.Evaluate? {
      EvaluatedCarries(m.s);
    }
    QuietStranded(m, After(m, step), k, id);
  }

  lemma PopStranded(m: Machine, step: Step, k: nat, id: InputId)
    requires Stranded(m, k, id) && Replicated(m) && Enabled(m, step) && step.Pop?
    ensures Stranded(After(m, step), k, id)
  {
    var s := m.s.(events := m.s.events[1..]);
    if m.s.events[0].EvItem? {
      ItemsHead(m.s.events);
      assert m.log[m.applied..][0] == m.log[m.applied] == m.s.events[0].item;
      ItemTurns(s, m.s.events[0].item);
    } else {
      HandledCarries(s, m.s.events[0], step.calls);
      QuietStranded(m, After(m, step), k, id);
    }
  }

  lemma OtherStranded(m: Machine, step: Step, k: nat, id: InputId)
    requires Stranded(m, k, id) && Enabled(m, step)
    requires step.Stream? || step.EndRequest? || step.Exit? || Appends(step)
    ensures Stranded(After(m, step), k, id)
  {
    var y := After(m, step);
    Answers.TurnsKept(m, step);
    if Appends(step) {
      forall j | y.applied <= j < |y.log| && y.log[j].Input?
        ensures y.log[j].id != id
      {
      }
    } else {
      QuietStranded(m, y, k, id);
    }
  }

  lemma RestStranded(m: Machine, step: Step, k: nat, id: InputId)
    requires Stranded(m, k, id) && Enabled(m, step)
    requires !step.SubmitPrompt? && !step.Pop? && !step.Evaluate? && !step.SubmitNext? && !step.Abort?
    ensures Stranded(After(m, step), k, id)
  {
    if step.Prompt? || step.Mark? || step.Steer? || step.SubmitSteer? {
      ClientStranded(m, step, k, id);
    } else if step.Stream? || step.EndRequest? || step.Exit? || Appends(step) {
      OtherStranded(m, step, k, id);
    } else {
      Answers.TurnsKept(m, step);
      QuietStranded(m, After(m, step), k, id);
    }
  }

  lemma StepStranded(m: Machine, step: Step, k: nat, id: InputId)
    requires Stranded(m, k, id) && Replicated(m) && Enabled(m, step)
    ensures Stranded(After(m, step), k, id)
  {
    match step
    case SubmitPrompt(other, ok) => SubmitStranded(m, other, ok, k, id);
    case Pop(_, _) => PopStranded(m, step, k, id);
    case Evaluate => ActorStranded(m, step, k, id);
    case SubmitNext => ActorStranded(m, step, k, id);
    case Abort(_) =>
      AbortCarries(m.s);
      QuietStranded(m, After(m, step), k, id);
    case _ => RestStranded(m, step, k, id);
  }

  /** A stranded turn never ends by itself, however long the session runs. */
  lemma {:induction false} StrandedForGood(m: Machine, steps: seq<Step>, k: nat, id: InputId)
    requires Stranded(m, k, id) && Replicated(m) && Run(m, steps)
    ensures Judge(Final(m, steps).s) == AnswerDone ==> Final(m, steps).s.turns.current != Some(k)
    decreases |steps|
  {
    if steps != [] {
      StepStranded(m, steps[0], k, id);
      StepReplicated(m, steps[0]);
      StrandedForGood(After(m, steps[0]), steps[1..], k, id);
    }
  }

  /** Such a steer is within reach: one that comes while the first prompt is still starting its
      coordinator. */
  lemma EarlySteerIsRefused(id: InputId, steer: InputId)
    requires id != steer
    ensures Run(Opened([]), [Prompt(id)])
    ensures var m := Final(Opened([]), [Prompt(id)]);
            Enabled(m, Steer(steer, true)) && Abortable(m.s.turns) && m.s.gen.None?
  {
    RunOne(Opened([]), Prompt(id));
  }

  /** Steer records its id before it looks for a generation. So an interrupting steer refused for
      want of one, whose caller is told it failed, keeps its turn from ever ending by itself. */
  lemma RefusedSteerStrandsItsTurn(log: seq<Item>, m: Machine, id: InputId, y: Machine)
    requires Reaches(Opened(log), m) && Enabled(m, Steer(id, true))
    requires Abortable(m.s.turns) && m.s.gen.None? && Reaches(TakeSteer(m, id, true), y)
    ensures Steered(m.s, id, true).1.Refused?
    ensures Judge(y.s) == AnswerDone ==> y.s.turns.current != m.s.turns.current
  {
    OpenedBooks(log);
    ReachedBooks(Opened(log), m);
    RefusedSteerStrands(m, id);
    StepReplicated(m, Steer(id, true));
    var later :| Run(TakeSteer(m, id, true), later) && y == Final(TakeSteer(m, id, true), later);
    StrandedForGood(TakeSteer(m, id, true), later, m.s.turns.current.value, id);
  }

  lemma RefusedSteerStrands(m: Machine, id: InputId)
    requires Books(m) && Enabled(m, Steer(id, true)) && Abortable(m.s.turns) && m.s.gen.None?
    ensures Stranded(TakeSteer(m, id, true), m.s.turns.current.value, id)
  {
    assert Tally(m, id) == 0;
    assert id !in m.submitted;
  }

  /** A refused steer leaves the session as it was exactly when no turn could take one: refused for
      want of a generation, it leaves its id behind. */
  lemma RefusalLeavesNoTraceWithoutATurn(s: Session, id: InputId, interrupt: bool)
    requires Steered(s, id, interrupt).1.Refused?
    requires s.turns.Now().Some? ==> id !in s.turns.Now().value.unobserved
    ensures Steered(s, id, interrupt).0 == s <==> !Abortable(s.turns)
  {
    if Abortable(s.turns) {
      var t := Steered(s, id, interrupt).0;
      assert id in t.turns.Now().value.unobserved;
    }
  }

  /** An interrupting steer taken for a generation whose coordinator is already gone is lost, and
      strands its turn as well. */
  lemma LostSteerStrandsItsTurn(log: seq<Item>, m: Machine, id: InputId, y: Machine)
    requires Reaches(Opened(log), m) && Enabled(m, Steer(id, true))
    requires Abortable(m.s.turns) && m.s.gen.Some? && m.live != m.s.gen && Reaches(TakeSteer(m, id, true), y)
    ensures Steered(m.s, id, true).1.Interrupting?
    ensures Judge(y.s) == AnswerDone ==> y.s.turns.current != m.s.turns.current
  {
    OpenedBooks(log);
    ReachedBooks(Opened(log), m);
    LostSteerStrands(m, id);
    StepReplicated(m, Steer(id, true));
    var later :| Run(TakeSteer(m, id, true), later) && y == Final(TakeSteer(m, id, true), later);
    StrandedForGood(TakeSteer(m, id, true), later, m.s.turns.current.value, id);
  }

  lemma LostSteerStrands(m: Machine, id: InputId)
    requires Books(m) && Enabled(m, Steer(id, true))
    requires Abortable(m.s.turns) && m.s.gen.Some? && m.live != m.s.gen
    ensures Stranded(TakeSteer(m, id, true), m.s.turns.current.value, id)
  {
    assert Tally(m, id) == 0;
    assert id !in m.submitted;
  }

  /** A coordinator that ends takes with it what is on the way into its inbox and not recorded yet:
      a turn that waits for such an input never ends by itself. */
  lemma ExitStrands(log: seq<Item>, m: Machine, failed: Option<nat>, id: InputId, y: Machine)
    requires Reaches(Opened(log), m) && m.live.Some? && m.s.turns.Now().Some? && id in m.s.turns.Now().value.unobserved
    requires id in m.inbox || (id in m.transit && m.transit[id].FromSteer?) ||
             (m.actor.Submitting? && id in m.actor.steers)
    requires forall j | m.applied <= j < |m.log| && m.log[j].Input? :: m.log[j].id != id
    requires Reaches(Exited(m, failed), y)
    ensures Judge(y.s) == AnswerDone ==> y.s.turns.current != m.s.turns.current
  {
    OpenedBooks(log);
    ReachedBooks(Opened(log), m);
    DroppedIsStranded(m, failed, id);
    StepReplicated(m, Exit(failed));
    var later :| Run(Exited(m, failed), later) && y == Final(Exited(m, failed), later);
    StrandedForGood(Exited(m, failed), later, m.s.turns.current.value, id);
  }

  lemma DroppedIsStranded(m: Machine, failed: Option<nat>, id: InputId)
    requires Books(m) && m.live.Some? && m.s.turns.Now().Some? && id in m.s.turns.Now().value.unobserved
    requires id in m.inbox || (id in m.transit && m.transit[id].FromSteer?) ||
             (m.actor.Submitting? && id in m.actor.steers)
    requires forall j | m.applied <= j < |m.log| && m.log[j].Input? :: m.log[j].id != id
    ensures Stranded(Exited(m, failed), m.s.turns.current.value, id)
  {
    assert 1 <= Tally(m, id) <= 1;
  }
}
