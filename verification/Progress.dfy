/** What the actor, the aborts under way and the timers still have to do, and that it gets done.

    Each operation an abort has yet to cancel costs one step and may post a snapshot; the end of an
    abort posts a wake and starts the grace timer, whose event starts the flush timer; a queued
    event costs one step to handle and one to evaluate. With no turn left to abort, each of these
    steps brings what is left down, in whatever order they come, so all of them come to an end. And
    whether the actor submits, aborts or waits, it has something to submit, an abort of its own, or
    an event to wait for. */
module Progress {
  import opened Harness
  import opened Mirrors
  import opened Ops
  import opened SessionSteps
  import opened SessionRuns

  /** Steps of the actor, of aborts under way, and of timers: nothing from outside. */
  predicate Internal(step: Step) {
    step.Pop? || step.Evaluate? || step.SubmitNext? || step.CancelNext? || step.EndAbort? || step.Fire?
  }

  predicate AllInternal(steps: seq<Step>) {
    forall i | 0 <= i < |steps| :: Internal(steps[i])
  }

  /** A cancellation may post a snapshot; the end of an abort posts a wake and starts a timer. */
  function TaskWork(aborts: seq<Canceller>): nat {
    if aborts == [] then 0
    else TaskWork(aborts[..|aborts| - 1]) + 3 * |aborts[|aborts| - 1].ids| + 10
  }

  /** An event is handled and evaluated; a grace event may start the flush timer as well. */
  function EventWork(ev: Event): nat {
    if ev.EvCancelGrace? then 5 else 2
  }

  function QueueWork(events: seq<Event>): nat {
    if events == [] then 0 else QueueWork(events[..|events| - 1]) + EventWork(events[|events| - 1])
  }

  /** A timer that fires posts its event. */
  function TimerWork(timers: set<TurnTimer>): nat {
    6 * |Graces(timers)| + 3 * |timers - Graces(timers)|
  }

  function Graces(timers: set<TurnTimer>): set<TurnTimer> {
    set timer | timer in timers && timer.GraceTimer?
  }

  function ActorWork(actor: Actor): nat {
    match actor
    case Resting => 0
    case MustEvaluate => 1
    case Submitting(_, steers) => |steers|
    case Aborting => 1
  }

  /** How many steps are left at most before all is at rest, if nothing comes from outside. */
  function Work(m: Machine): nat {
    TaskWork(m.aborts) + QueueWork(m.s.events) + TimerWork(m.s.timers) + ActorWork(m.actor)
  }

  /** The actor runs one abort at most, and one exactly while it is aborting. */
  ghost predicate Crewed(aborts: seq<Canceller>, aborting: bool) {
    && (aborting ==> exists i | 0 <= i < |aborts| :: aborts[i].byActor)
    && (forall i | 0 <= i < |aborts| && aborts[i].byActor :: aborting)
    && (forall i, j | 0 <= i < j < |aborts| :: !aborts[i].byActor || !aborts[j].byActor)
  }

  /** The actor submits while it has something to submit, and aborts while it has its own abort,
      the only one it runs. */
  ghost predicate Manned(m: Machine) {
    && (m.actor.Submitting? ==> m.actor.steers != [])
    && Crewed(m.aborts, m.actor.Aborting?)
  }

  // ---- every run keeps the actor manned ----

  lemma SameManned(m: Machine, y: Machine)
    requires Manned(m) && y.aborts == m.aborts
    requires y.actor == m.actor || (m.actor.Submitting? && y.actor.Resting?)
    ensures Manned(y)
  {
  }

  lemma ClientManned(m: Machine, step: Step)
    requires step.Prompt? || step.SubmitPrompt? || step.Mark? || step.Steer? || step.SubmitSteer?
    ensures After(m, step).aborts == m.aborts && After(m, step).actor == m.actor
  {
  }

  lemma AbortManned(m: Machine, ids: seq<OpId>)
    requires Manned(m)
    ensures Manned(StartedAbort(m, ids))
  {
    var y := StartedAbort(m, ids);
    if m.actor.Aborting? {
      var i :| 0 <= i < |m.aborts| && m.aborts[i].byActor;
      assert y.aborts[i].byActor;
    }
  }

  lemma CancelManned(m: Machine, t: nat)
    requires Manned(m) && Enabled(m, CancelNext(t))
    ensures Manned(CancelledNext(m, t))
  {
    var y := CancelledNext(m, t);
    if m.actor.Aborting? {
      var i :| 0 <= i < |m.aborts| && m.aborts[i].byActor;
      assert y.aborts[i].byActor;
    }
  }

  lemma OneFewer(aborts: seq<Canceller>, t: nat, aborting: bool)
    requires t < |aborts| && Crewed(aborts, aborting)
    ensures Crewed(aborts[..t] + aborts[t + 1..], aborting && !aborts[t].byActor)
  {
    var rest := aborts[..t] + aborts[t + 1..];
    assert forall i | 0 <= i < |rest| :: rest[i] == aborts[if i < t then i else i + 1];
    if aborting && !aborts[t].byActor {
      var i :| 0 <= i < |aborts| && aborts[i].byActor;
      assert rest[if i < t then i else i - 1] == aborts[i];
    }
  }

  lemma EndManned(m: Machine, t: nat)
    requires Manned(m) && Enabled(m, EndAbort(t))
    ensures Manned(EndedAbort(m, t))
  {
    OneFewer(m.aborts, t, m.actor.Aborting?);
  }

  lemma ActorManned(m: Machine, step: Step)
    requires Manned(m) && Enabled(m, step) && (step.Pop? || step.Evaluate? || step.SubmitNext? || step.Exit?)
    ensures Manned(After(m, step))
  {
    var y := After(m, step);
    if step.Pop? && y.actor.Aborting? {
      assert y.aborts[|m.aborts|].byActor;
    }
  }

  lemma OthersManned(m: Machine, step: Step)
    requires Appends(step) || step.Permit? || step.Fire? || step.Stream? || step.EndRequest? || step.AddOp? ||
             step.DoAction? || step.PumpOp? || step.Deliver?
    ensures After(m, step).aborts == m.aborts && After(m, step).actor == m.actor
  {
  }

  lemma StepManned(m: Machine, step: Step)
    requires Manned(m) && Enabled(m, step)
    ensures Manned(After(m, step))
  {
    match step
    case Abort(ids) => AbortManned(m, ids);
    case CancelNext(t) => CancelManned(m, t);
    case EndAbort(t) => EndManned(m, t);
    case _ => if step.Pop? || step.Evaluate? || step.SubmitNext? || step.Exit? {
      ActorManned(m, step);
    } else {
      RestManned(m, step);
    }
  }

  lemma RestManned(m: Machine, step: Step)
    requires Manned(m) && Enabled(m, step) && !step.Abort? && !step.CancelNext? && !step.EndAbort?
    requires !step.Pop? && !step.Evaluate? && !step.SubmitNext? && !step.Exit?
    ensures Manned(After(m, step))
  {
    if step.Prompt? || step.SubmitPrompt? || step.Mark? || step.Steer? || step.SubmitSteer? {
      ClientManned(m, step);
    } else {
      OthersManned(m, step);
    }
    SameManned(m, After(m, step));
  }

  lemma {:induction false} RunManned(m: Machine, steps: seq<Step>)
    requires Manned(m) && Run(m, steps)
    ensures Manned(Final(m, steps))
    decreases |steps|
  {
    if steps != [] {
      StepManned(m, steps[0]);
      RunManned(After(m, steps[0]), steps[1..]);
    }
  }

  lemma ReachedManned(log: seq<Item>, m: Machine)
    requires Reaches(Opened(log), m)
    ensures Manned(m)
  {
    var steps :| Run(Opened(log), steps) && m == Final(Opened(log), steps);
    RunManned(Opened(log), steps);
  }

  // ---- the work shrinks ----

  lemma {:induction false} WorkSplits(a: seq<Canceller>, b: seq<Canceller>)
    ensures TaskWork(a + b) == TaskWork(a) + TaskWork(b)
    decreases |b|
  {
    if b == [] {
      assert a + b == a;
    } else {
      assert (a + b)[..|a + b| - 1] == a + b[..|b| - 1];
      WorkSplits(a, b[..|b| - 1]);
    }
  }

  lemma WorkOfOne(aborts: seq<Canceller>, i: nat, task: Canceller)
    requires i < |aborts|
    ensures TaskWork(aborts) == TaskWork(aborts[..i] + aborts[i + 1..]) + 3 * |aborts[i].ids| + 10
    ensures TaskWork(aborts[i := task]) == TaskWork(aborts[..i] + aborts[i + 1..]) + 3 * |task.ids| + 10
  {
    assert aborts == (aborts[..i] + [aborts[i]]) + aborts[i + 1..];
    assert aborts[i := task] == (aborts[..i] + [task]) + aborts[i + 1..];
    WorkSplits(aborts[..i], aborts[i + 1..]);
    WorkSplits(aborts[..i] + [aborts[i]], aborts[i + 1..]);
    WorkSplits(aborts[..i] + [task], aborts[i + 1..]);
    WorkSplits(aborts[..i], [aborts[i]]);
    WorkSplits(aborts[..i], [task]);
    assert [aborts[i]][..0] == [] && [task][..0] == [];
  }

  lemma {:induction false} QueueSplits(a: seq<Event>, b: seq<Event>)
    ensures QueueWork(a + b) == QueueWork(a) + QueueWork(b)
    decreases |b|
  {
    if b == [] {
      assert a + b == a;
    } else {
      assert (a + b)[..|a + b| - 1] == a + b[..|b| - 1];
      QueueSplits(a, b[..|b| - 1]);
    }
  }

  lemma OneEvent(ev: Event)
    ensures QueueWork([ev]) == EventWork(ev)
  {
    assert [ev][..0] == [];
  }

  lemma TimerStarts(timers: set<TurnTimer>, timer: TurnTimer)
    ensures TimerWork(timers + {timer}) <= TimerWork(timers) + (if timer.GraceTimer? then 6 else 3)
    ensures timer !in timers ==> TimerWork(timers + {timer}) == TimerWork(timers) + (if timer.GraceTimer? then 6 else 3)
  {
    var more := timers + {timer};
    if timer.GraceTimer? {
      assert Graces(more) == Graces(timers) + {timer} && more - Graces(more) == timers - Graces(timers);
    } else {
      assert Graces(more) == Graces(timers) && more - Graces(more) == (timers - Graces(timers)) + {timer};
    }
  }

  /** The next step of the abort `i`. */
  function TaskStep(m: Machine, i: nat): Step
    requires i < |m.aborts|
  {
    if m.aborts[i].ids == [] then EndAbort(i) else CancelNext(i)
  }

  lemma CancelShrinks(m: Machine, i: nat)
    requires Enabled(m, CancelNext(i))
    ensures Work(CancelledNext(m, i)) < Work(m)
  {
    var task, y := m.aborts[i], CancelledNext(m, i);
    WorkOfOne(m.aborts, i, task.(ids := task.ids[1..]));
    if y.s.events == m.s.events + [] {
      assert m.s.events + [] == m.s.events;
    } else {
      var posted := y.s.events[|m.s.events|];
      assert y.s.events == m.s.events + [posted] && posted.EvOp?;
      QueueSplits(m.s.events, [posted]);
      OneEvent(posted);
    }
  }

  lemma EndShrinks(m: Machine, i: nat)
    requires Enabled(m, EndAbort(i))
    ensures Work(EndedAbort(m, i)) < Work(m)
  {
    WorkOfOne(m.aborts, i, m.aborts[i]);
    QueueSplits(m.s.events, [EvWake]);
    OneEvent(EvWake);
    TimerStarts(m.s.timers, GraceTimer(m.aborts[i].turn));
  }

  lemma FireShrinks(m: Machine, timer: TurnTimer)
    requires timer in m.s.timers
    ensures Work(Fired(m, timer)) < Work(m)
  {
    var y := Fired(m, timer);
    var posted := if timer.GraceTimer? then EvCancelGrace(timer.turn) else EvCancelFlush(timer.turn);
    assert y.s.events == m.s.events + [posted];
    QueueSplits(m.s.events, [posted]);
    OneEvent(posted);
    assert y.s.timers + {timer} == m.s.timers;
    TimerStarts(y.s.timers, timer);
  }

  lemma PopShrinks(m: Machine, ids: seq<OpId>, calls: seq<CallId>)
    requires !Abortable(m.s.turns) && m.actor.Resting? && m.s.events != []
    ensures Work(Popped(m, ids, calls)) < Work(m)
  {
    var ev, s := m.s.events[0], m.s.(events := m.s.events[1..]);
    HandledKeepsRecords(s, ev, calls);
    assert m.s.events == [ev] + s.events;
    QueueSplits([ev], s.events);
    OneEvent(ev);
    PopStartsNoAbort(m, ids, calls);
    if ev.EvCancelGrace? {
      TimerStarts(m.s.timers, FlushTimer(ev.turn));
    }
  }

  /** With no turn to abort, an event starts no abort, and a timer only if it is a grace event. */
  lemma PopStartsNoAbort(m: Machine, ids: seq<OpId>, calls: seq<CallId>)
    requires !Abortable(m.s.turns) && m.s.events != []
    ensures var y, ev := Popped(m, ids, calls), m.s.events[0];
            && y.actor.MustEvaluate? && y.aborts == m.aborts && !Abortable(y.s.turns)
            && (y.s.timers == m.s.timers || (ev.EvCancelGrace? && y.s.timers == m.s.timers + {FlushTimer(ev.turn)}))
  {
  }

  /** With no turn left to abort, every step of the actor, of an abort and of a timer shrinks the
      work, and leaves no turn to abort. */
  lemma InternalShrinks(m: Machine, step: Step)
    requires !Abortable(m.s.turns) && Enabled(m, step) && Internal(step)
    ensures Work(After(m, step)) < Work(m) && !Abortable(After(m, step).s.turns)
  {
    match step
    case Pop(ids, calls) =>
      PopStartsNoAbort(m, ids, calls);
      PopShrinks(m, ids, calls);
    case CancelNext(i) => CancelShrinks(m, i);
    case EndAbort(i) => EndShrinks(m, i);
    case Fire(timer) => FireShrinks(m, timer);
    case Evaluate => EvaluateShrinks(m);
    case _ =>
  }

  lemma EvaluateShrinks(m: Machine)
    requires !Abortable(m.s.turns) && m.actor.MustEvaluate?
    ensures Work(EvaluatedStep(m)) < Work(m) && !Abortable(EvaluatedStep(m).s.turns)
  {
  }

  lemma {:induction false} InternalRunShrinks(m: Machine, steps: seq<Step>)
    requires !Abortable(m.s.turns) && Run(m, steps) && AllInternal(steps)
    ensures |steps| + Work(Final(m, steps)) <= Work(m)
    decreases |steps|
  {
    if steps != [] {
      InternalShrinks(m, steps[0]);
      InternalRunShrinks(After(m, steps[0]), steps[1..]);
    }
  }

  /** The actor, unless it rests over an empty queue, has a step. */
  lemma ActorMoves(m: Machine) returns (step: Step)
    requires Manned(m) && !Abortable(m.s.turns) && (!m.actor.Resting? || m.s.events != [])
    ensures Enabled(m, step) && Internal(step) && !step.Fire?
  {
    match m.actor
    case Resting =>
      var calls := List(if m.s.turns.Now().Some? then m.s.turns.Now().value.waitCalls else {});
      step := Pop([], calls);
    case MustEvaluate => step := Evaluate;
    case Submitting(_, _) => step := SubmitNext;
    case Aborting =>
      var i :| 0 <= i < |m.aborts| && m.aborts[i].byActor;
      step := TaskStep(m, i);
  }

  /** The elements of a set in some order. */
  lemma List(ids: set<nat>) returns (list: seq<nat>)
    ensures forall id :: id in list <==> id in ids
  {
    if ids == {} {
      list := [];
    } else {
      var id :| id in ids;
      var rest := List(ids - {id});
      list := [id] + rest;
    }
  }

  /** There is always another number. */
  lemma Unused(ids: set<nat>) returns (id: nat)
    ensures id != NO_ID && id !in ids
  {
    id := 1;
    var rest := ids;
    while id in ids
      invariant id > 0 && rest <= ids && forall other | other in ids && other >= id :: other in rest
      decreases |rest|
    {
      rest := rest - {id};
      id := id + 1;
    }
  }
}
