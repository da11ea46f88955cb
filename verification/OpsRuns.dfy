/** The decorator under every interleaving of its callers, its pump, its feeder and its timers. */
module OpsRuns {
  import opened Harness
  import opened Ops

  /** A locked section and what it leaves to be done outside the lock are separate steps. `todo`
      holds what locked sections left to be done; `made` every operation the decorator answered
      with a snapshot of its own; `ended` every operation whose terminal snapshot the inner manager
      has sent. */
  datatype Machine = Machine(ops: OpsState, todo: seq<Action>, made: seq<OpId>, ended: set<OpId>)

  const START := Machine(IDLE, [], [], {})

  datatype Step =
    | Add(op: Operation, verdict: Verdict, reason: string)
    | Decide(id: OpId, allow: bool, reason: string)
    | Cancel(id: OpId, reason: string)
    | Do(i: nat, accepted: bool)             // the outside-the-lock half of an earlier step
    | Pump(op: Operation)                    // a snapshot from the inner manager
    | Deliver
    | Limit(id: OpId)
    | Kill(id: OpId)

  /** The inner manager speaks only of operations it accepted, and not after their end. A kill
      timer's callback runs while its own registration stands, or after it was withdrawn. */
  predicate Enabled(x: Machine, s: Step) {
    match s
    case Do(i, _) => i < |x.todo|
    case Pump(op) => op.id in x.ops.inner && op.id !in x.ended
    case Limit(id) => id in x.ops.inner
    case Kill(id) => id in x.ops.timers ==> x.ops.timers[id] == KillGrace
    case _ => true
  }

  function Later(todo: seq<Action>, a: Action): seq<Action> {
    if a.Nothing? then todo else todo + [a]
  }

  /** The operation a performed action made up an answer for. */
  function Invented(a: Action, accepted: bool): seq<OpId> {
    match a
    case Emission(snapshot, true) => [snapshot.id]
    case Forwarding(op, true) => if accepted then [] else [op.id]
    case _ => []
  }

  function After(x: Machine, s: Step): Machine {
    match s
    case Add(op, verdict, reason) =>
      var (m, a) := AddLocked(x.ops, op, verdict, reason, true);
      x.(ops := m, todo := Later(x.todo, a))
    case Decide(id, allow, reason) =>
      var (m, a) := DecideLocked(x.ops, id, allow, reason);
      x.(ops := m, todo := Later(x.todo, a))
    case Cancel(id, reason) =>
      x.(ops := CancelNow(x.ops, id, reason), made := x.made + if id in x.ops.held then [id] else [])
    case Do(i, accepted) =>
      if i >= |x.todo| then x
      else x.(ops := Perform(x.ops, x.todo[i], accepted, true), todo := x.todo[..i] + x.todo[i + 1..],
           made := x.made + Invented(x.todo[i], accepted))
    case Pump(op) =>
      x.(ops := Emit(x.ops, op), ended := x.ended + if op.status.Terminal() then {op.id} else {})
    case Deliver => x.(ops := Feed(x.ops))
    case Limit(id) => x.(ops := LimitFires(x.ops, id, true))
    case Kill(id) => x.(ops := KillFires(x.ops, id))
  }

  function Final(x: Machine, steps: seq<Step>): Machine
    decreases |steps|
  {
    if steps == [] then x else Final(After(x, steps[0]), steps[1..])
  }

  predicate Run(x: Machine, steps: seq<Step>)
    decreases |steps|
  {
    steps == [] || (Enabled(x, steps[0]) && Run(After(x, steps[0]), steps[1..]))
  }

  // ---- unique fate ----

  function Count(ids: seq<OpId>, id: OpId): nat {
    if ids == [] then 0 else Count(ids[..|ids| - 1], id) + if ids[|ids| - 1] == id then 1 else 0
  }

  /** An action that will settle what becomes of `id`. */
  predicate Settles(a: Action, id: OpId) {
    (a.Forwarding? && a.op.id == id) || (a.Emission? && a.invented && a.snapshot.id == id)
  }

  function Settling(todo: seq<Action>, id: OpId): nat {
    if todo == [] then 0
    else Settling(todo[..|todo| - 1], id) + if Settles(todo[|todo| - 1], id) then 1 else 0
  }

  /** How many fates `id` has: held, about to be settled, accepted by the inner manager, or
      answered by the decorator. */
  function Fates(x: Machine, id: OpId): nat {
    (if id in x.ops.held then 1 else 0) + Settling(x.todo, id) + Count(x.ops.inner, id) + Count(x.made, id)
  }

  predicate OneFate(x: Machine, id: OpId) {
    && Fates(x, id) <= 1
    && Count(x.ops.asked, id) <= 1
    && (id !in x.ops.latest ==> Fates(x, id) == 0 && Count(x.ops.asked, id) == 0)
    && (id in x.ops.held ==> x.ops.held[id].id == id)
  }

  lemma CountAppend(ids: seq<OpId>, last: OpId, id: OpId)
    ensures Count(ids + [last], id) == Count(ids, id) + if last == id then 1 else 0
  {
    assert (ids + [last])[..|ids|] == ids;
  }

  lemma SettlingAppend(todo: seq<Action>, a: Action, id: OpId)
    ensures Settling(todo + [a], id) == Settling(todo, id) + if Settles(a, id) then 1 else 0
  {
    assert (todo + [a])[..|todo|] == todo;
  }

  lemma {:induction false} SettlingConcat(a: seq<Action>, b: seq<Action>, id: OpId)
    ensures Settling(a + b, id) == Settling(a, id) + Settling(b, id)
    decreases |b|
  {
    if b == [] {
      assert a + b == a;
    } else {
      var last := |b| - 1;
      assert (a + b)[..|a + b| - 1] == a + b[..last];
      SettlingConcat(a, b[..last], id);
    }
  }

  lemma SettlingRemove(todo: seq<Action>, i: nat, id: OpId)
    requires i < |todo|
    ensures Settling(todo[..i] + todo[i + 1..], id) + (if Settles(todo[i], id) then 1 else 0) == Settling(todo, id)
  {
    assert todo == (todo[..i] + [todo[i]]) + todo[i + 1..];
    SettlingConcat(todo[..i] + [todo[i]], todo[i + 1..], id);
    SettlingConcat(todo[..i], todo[i + 1..], id);
    SettlingAppend(todo[..i], todo[i], id);
  }

  lemma {:induction false} CountMember(ids: seq<OpId>, id: OpId)
    ensures id in ids <==> Count(ids, id) > 0
  {
    if ids != [] {
      CountMember(ids[..|ids| - 1], id);
      assert ids == ids[..|ids| - 1] + [ids[|ids| - 1]];
    }
  }

  lemma AddKeepsOneFate(x: Machine, s: Step, id: OpId)
    requires s.Add? && OneFate(x, id)
    ensures OneFate(After(x, s), id)
  {
    var a := AddLocked(x.ops, s.op, s.verdict, s.reason, true).1;
    SettlingAppend(x.todo, a, id);
    if s.op.id in x.ops.held || s.op.id in x.ops.latest {
      AddAgain(x, s, id);
    } else {
      CountAppend(x.ops.asked, s.op.id, id);
      FirstAdd(x, s, id);
      FirstAddOneFate(x, s, id);
    }
  }

  /** A repeated Add settles nothing. */
  lemma AddAgain(x: Machine, s: Step, id: OpId)
    requires s.Add? && (s.op.id in x.ops.held || s.op.id in x.ops.latest)
    ensures var y, a := After(x, s), AddLocked(x.ops, s.op, s.verdict, s.reason, true).1;
            y == x.(todo := y.todo) && (y.todo == x.todo || (y.todo == x.todo + [a] && !Settles(a, id)))
  {
  }

  lemma FirstAddOneFate(x: Machine, s: Step, id: OpId)
    requires s.Add? && OneFate(x, id) && s.op.id !in x.ops.held && s.op.id !in x.ops.latest
    requires var y, a := After(x, s), AddLocked(x.ops, s.op, s.verdict, s.reason, true).1;
             && y.made == x.made && y.ops.inner == x.ops.inner
             && y.ops.latest.Keys == x.ops.latest.Keys + {s.op.id}
             && Settling(x.todo + [a], id) == Settling(x.todo, id) + (if Settles(a, id) then 1 else 0)
             && Count(y.ops.asked, id) <= Count(x.ops.asked, id) + (if s.op.id == id then 1 else 0)
    ensures OneFate(After(x, s), id)
  {
    FirstAddFates(x, s, id);
    FirstAddHolds(x, s, id);
  }

  lemma FirstAddHolds(x: Machine, s: Step, id: OpId)
    requires s.Add? && s.op.id !in x.ops.held && s.op.id !in x.ops.latest
    requires id in x.ops.held ==> x.ops.held[id].id == id
    ensures var held := After(x, s).ops.held; id in held ==> held[id].id == id
  {
  }

  lemma FirstAddFates(x: Machine, s: Step, id: OpId)
    requires s.Add? && s.op.id !in x.ops.held && s.op.id !in x.ops.latest
    requires var y, a := After(x, s), AddLocked(x.ops, s.op, s.verdict, s.reason, true).1;
             && y.made == x.made && y.ops.inner == x.ops.inner
             && Settling(x.todo + [a], id) == Settling(x.todo, id) + (if Settles(a, id) then 1 else 0)
    ensures Fates(After(x, s), id) <= Fates(x, id) + (if s.op.id == id then 1 else 0)
  {
    FirstAddHoldsOrActs(x, s, id);
    OneMoreFate(x, After(x, s), AddLocked(x.ops, s.op, s.verdict, s.reason, true).1, s.op, id);
  }

  /** The first Add holds the operation, or leaves the one action that will settle it. */
  lemma FirstAddHoldsOrActs(x: Machine, s: Step, id: OpId)
    requires s.Add? && s.op.id !in x.ops.held && s.op.id !in x.ops.latest
    ensures var y, a := After(x, s), AddLocked(x.ops, s.op, s.verdict, s.reason, true).1;
            && (if y.todo == x.todo then y.ops.held == x.ops.held || y.ops.held == x.ops.held[s.op.id := s.op]
                else y.todo == x.todo + [a] && y.ops.held == x.ops.held)
            && (Settles(a, id) ==> s.op.id == id)
  {
  }

  lemma OneMoreFate(x: Machine, y: Machine, a: Action, op: Operation, id: OpId)
    requires y.made == x.made && y.ops.inner == x.ops.inner
    requires if y.todo == x.todo then y.ops.held == x.ops.held || y.ops.held == x.ops.held[op.id := op]
             else y.todo == x.todo + [a] && y.ops.held == x.ops.held
    requires Settling(x.todo + [a], id) == Settling(x.todo, id) + (if Settles(a, id) then 1 else 0)
    requires Settles(a, id) ==> op.id == id
    ensures Fates(y, id) <= Fates(x, id) + (if op.id == id then 1 else 0)
  {
  }

  /** The first Add gives an operation its one fate. */
  lemma FirstAdd(x: Machine, s: Step, id: OpId)
    requires s.Add? && s.op.id !in x.ops.held && s.op.id !in x.ops.latest
    ensures var y := After(x, s);
            && y.made == x.made && y.ops.inner == x.ops.inner
            && y.ops.latest.Keys == x.ops.latest.Keys + {s.op.id}
            && (y.ops.held == x.ops.held || (y.ops.held == x.ops.held[s.op.id := s.op] && y.todo == x.todo))
            && (y.ops.asked == x.ops.asked || y.ops.asked == x.ops.asked + [s.op.id])
  {
  }

  lemma DecideKeepsOneFate(x: Machine, s: Step, id: OpId)
    requires s.Decide? && OneFate(x, id) && OneFate(x, s.id)
    ensures OneFate(After(x, s), id)
  {
    var (m, a) := DecideLocked(x.ops, s.id, s.allow, s.reason);
    SettlingAppend(x.todo, a, id);
  }

  lemma CancelKeepsOneFate(x: Machine, s: Step, id: OpId)
    requires s.Cancel? && OneFate(x, id) && OneFate(x, s.id)
    ensures OneFate(After(x, s), id)
  {
    CountAppend(x.made, s.id, id);
    assert x.made + [] == x.made;
  }

  lemma DoKeepsOneFate(x: Machine, s: Step, id: OpId)
    requires s.Do? && Enabled(x, s) && OneFate(x, id)
    requires forall a | a in x.todo :: a.Emission? ==> a.snapshot.id in x.ops.latest
    ensures OneFate(After(x, s), id)
  {
    var a := x.todo[s.i];
    SettlingRemove(x.todo, s.i, id);
    match a
    case Forwarding(op, _) =>
      CountAppend(x.ops.inner, op.id, id);
      CountAppend(x.made, op.id, id);
    case Emission(snapshot, _) =>
      CountAppend(x.made, snapshot.id, id);
    case Nothing =>
      assert x.made + [] == x.made;
  }

  /** Everything still to be emitted is an operation already on record. */
  predicate Recorded(x: Machine) {
    && (forall a | a in x.todo :: a.Emission? ==> a.snapshot.id in x.ops.latest)
    && (forall id | id in x.ops.latest :: x.ops.latest[id].id == id)
    && (forall id | id in x.ops.held :: x.ops.held[id].id == id && id in x.ops.latest)
  }

  lemma StepKeepsRecorded(x: Machine, s: Step)
    requires Recorded(x) && Enabled(x, s)
    ensures Recorded(After(x, s))
  {
    match s
    case Add(_, _, _) => AddKeepsRecorded(x, s);
    case Decide(_, _, _) => DecideKeepsRecorded(x, s);
    case Do(i, _) =>
      assert x.todo[i] in x.todo;
      assert forall a | a in After(x, s).todo :: a in x.todo;
    case _ =>
  }

  lemma AddKeepsRecorded(x: Machine, s: Step)
    requires Recorded(x) && s.Add?
    ensures Recorded(After(x, s))
  {
    var a := AddLocked(x.ops, s.op, s.verdict, s.reason, true).1;
    assert forall b | b in After(x, s).todo :: b in x.todo || b == a;
    if s.op.id !in x.ops.held && s.op.id !in x.ops.latest {
      FirstAdd(x, s, s.op.id);
    }
  }

  lemma DecideKeepsRecorded(x: Machine, s: Step)
    requires Recorded(x) && s.Decide?
    ensures Recorded(After(x, s))
  {
    var a := DecideLocked(x.ops, s.id, s.allow, s.reason).1;
    assert forall b | b in After(x, s).todo :: b in x.todo || b == a;
  }

  lemma StepKeepsOneFate(x: Machine, s: Step, id: OpId)
    requires OneFate(x, id) && Recorded(x) && Enabled(x, s)
    requires s.Decide? || s.Cancel? ==> OneFate(x, s.id)
    ensures OneFate(After(x, s), id)
  {
    match s
    case Add(_, _, _) => AddKeepsOneFate(x, s, id);
    case Decide(_, _, _) => DecideKeepsOneFate(x, s, id);
    case Cancel(_, _) => CancelKeepsOneFate(x, s, id);
    case Do(_, _) => DoKeepsOneFate(x, s, id);
    case Pump(op) => CountMember(x.ops.inner, op.id);
    case _ =>
  }

  lemma {:induction false} RunKeepsOneFate(x: Machine, steps: seq<Step>, id: OpId)
    requires forall k :: OneFate(x, k)
    requires Recorded(x) && Run(x, steps)
    ensures OneFate(Final(x, steps), id)
    decreases |steps|
  {
    if steps != [] {
      forall k
        ensures OneFate(After(x, steps[0]), k)
      {
        StepKeepsOneFate(x, steps[0], k);
      }
      StepKeepsRecorded(x, steps[0]);
      RunKeepsOneFate(After(x, steps[0]), steps[1..], id);
    }
  }

  /** Unique fate: in every interleaving an operation reaches the inner manager at most once and
      is asked about at most once, and one that is held, or that the decorator answered itself,
      has not reached it. */
  lemma UniqueFate(steps: seq<Step>, id: OpId)
    requires Run(START, steps)
    ensures var x := Final(START, steps);
            && Count(x.ops.inner, id) <= 1
            && Count(x.ops.asked, id) <= 1
            && (id in x.ops.held || id in x.made ==> id !in x.ops.inner)
            && !(id in x.ops.held && id in x.made)
            && Count(x.made, id) <= 1
  {
    RunKeepsOneFate(START, steps, id);
    var x := Final(START, steps);
    CountMember(x.ops.inner, id);
    CountMember(x.made, id);
  }

  // ---- a settled answer stays settled ----

  /** `id` was answered by the decorator or accepted by the inner manager: both are for good. */
  lemma {:induction false} SettledForGood(x: Machine, steps: seq<Step>, id: OpId)
    requires Run(x, steps)
    ensures id in x.made ==> id in Final(x, steps).made
    ensures id in x.ops.inner ==> id in Final(x, steps).ops.inner
    decreases |steps|
  {
    if steps != [] {
      SettledForGood(After(x, steps[0]), steps[1..], id);
    }
  }

  /** An operation denied, or cancelled while held, never starts afterwards: the fate is final. */
  lemma DeniedNeverStarts(before: seq<Step>, later: seq<Step>, id: OpId)
    requires Run(START, before) && Run(Final(START, before), later)
    requires id in Final(START, before).made
    ensures id !in Final(Final(START, before), later).ops.inner
  {
    SettledForGood(Final(START, before), later, id);
    RunsJoin(START, before, later);
    UniqueFate(before + later, id);
  }

  lemma {:induction false} RunsJoin(x: Machine, a: seq<Step>, b: seq<Step>)
    requires Run(x, a) && Run(Final(x, a), b)
    ensures Run(x, a + b) && Final(x, a + b) == Final(Final(x, a), b)
    decreases |a|
  {
    if a == [] {
      assert a + b == b;
    } else {
      assert (a + b)[0] == a[0] && (a + b)[1..] == a[1..] + b;
      RunsJoin(After(x, a[0]), a[1..], b);
    }
  }

  // ---- lost updates ----

  /** Nothing will be said of `id` any more except by repetition: its newest snapshot is
      terminal, no start is under way, and the inner manager has ended it or never had it. */
  predicate Over(x: Machine, id: OpId) {
    && id in x.ops.latest && x.ops.latest[id].status.Terminal()
    && id !in x.ops.held
    && (forall a | a in x.todo :: !(a.Forwarding? && a.op.id == id))
    && (id in x.ops.inner ==> id in x.ended)
  }

  /** A repetition of an old, live snapshot of `id` is under way. */
  predicate StaleRepeat(x: Machine, id: OpId) {
    exists a | a in x.todo :: a.Emission? && a.snapshot.id == id && !a.snapshot.status.Terminal()
  }

  lemma AddKeepsOver(x: Machine, s: Step, id: OpId)
    requires Recorded(x) && Over(x, id) && !StaleRepeat(x, id) && s.Add?
    ensures Over(After(x, s), id) && !StaleRepeat(After(x, s), id)
  {
    var a := AddLocked(x.ops, s.op, s.verdict, s.reason, true).1;
    assert forall b | b in After(x, s).todo :: b in x.todo || b == a;
  }

  lemma StepKeepsOver(x: Machine, s: Step, id: OpId)
    requires Recorded(x) && Over(x, id) && !StaleRepeat(x, id) && Enabled(x, s)
    ensures Over(After(x, s), id) && !StaleRepeat(After(x, s), id)
  {
    var y := After(x, s);
    match s
    case Add(_, _, _) => AddKeepsOver(x, s, id);
    case Decide(k, allow, reason) =>
      var a := DecideLocked(x.ops, k, allow, reason).1;
      assert forall b | b in y.todo :: b in x.todo || b == a;
    case Do(i, accepted) =>
      assert x.todo[i] in x.todo;
      assert forall b | b in y.todo :: b in x.todo;
    case _ =>
  }

  lemma {:induction false} RunKeepsOver(x: Machine, steps: seq<Step>, id: OpId)
    requires Recorded(x) && Over(x, id) && !StaleRepeat(x, id) && Run(x, steps)
    ensures Over(Final(x, steps), id)
    decreases |steps|
  {
    if steps != [] {
      StepKeepsOver(x, steps[0], id);
      StepKeepsRecorded(x, steps[0]);
      RunKeepsOver(After(x, steps[0]), steps[1..], id);
    }
  }

  ghost predicate StaysTerminal(x: Machine, id: OpId) {
    forall steps | Run(x, steps) ::
      id in Final(x, steps).ops.latest && Final(x, steps).ops.latest[id].status.Terminal()
  }

  lemma StaleRepeatOvertakes(x: Machine, id: OpId)
    requires Over(x, id) && StaleRepeat(x, id)
    ensures !StaysTerminal(x, id)
  {
    var a :| a in x.todo && a.Emission? && a.snapshot.id == id && !a.snapshot.status.Terminal();
    var i :| 0 <= i < |x.todo| && x.todo[i] == a;
    var steps := [Do(i, false)];
    assert steps[1..] == [];
    assert Final(After(x, steps[0]), []) == Final(x, steps);
    assert Run(x, steps);
  }

  /** An operation whose newest snapshot is terminal is over as soon as the inner manager has ended
      it or the decorator has answered it: nothing that could still start it is left. */
  lemma EndedIsOver(steps: seq<Step>, id: OpId)
    requires Run(START, steps)
    requires var x := Final(START, steps);
             (id in x.ended || id in x.made) && id in x.ops.latest && x.ops.latest[id].status.Terminal()
    ensures Over(Final(START, steps), id) && Recorded(Final(START, steps))
  {
    RunKeepsOneFate(START, steps, id);
    RunKeepsTimers(START, steps);
    RunKeepsRecorded(START, steps);
    var x := Final(START, steps);
    CountMember(x.ops.inner, id);
    CountMember(x.made, id);
    forall a | a in x.todo
      ensures !(a.Forwarding? && a.op.id == id)
    {
      var i :| 0 <= i < |x.todo| && x.todo[i] == a;
      if Settles(x.todo[i], id) {
        SettlingPositive(x.todo, i, id);
      }
    }
  }

  lemma {:induction false} RunKeepsRecorded(x: Machine, steps: seq<Step>)
    requires Recorded(x) && Run(x, steps)
    ensures Recorded(Final(x, steps))
    decreases |steps|
  {
    if steps != [] {
      StepKeepsRecorded(x, steps[0]);
      RunKeepsRecorded(After(x, steps[0]), steps[1..]);
    }
  }

  /** Lost-update recovery, exactly: in every run, once an operation has ended or was answered, its
      terminal snapshot stays remembered whatever follows if and only if no repetition of an
      older live snapshot is under way. Add reads the snapshot it repeats under the lock and
      emits it after, so such a repetition can be overtaken. */
  lemma TerminalSurvivesExactly(steps: seq<Step>, id: OpId)
    requires Run(START, steps)
    requires var x := Final(START, steps);
             (id in x.ended || id in x.made) && id in x.ops.latest && x.ops.latest[id].status.Terminal()
    ensures StaysTerminal(Final(START, steps), id) <==> !StaleRepeat(Final(START, steps), id)
  {
    EndedIsOver(steps, id);
    var x := Final(START, steps);
    if StaleRepeat(x, id) {
      StaleRepeatOvertakes(x, id);
    } else {
      forall more | Run(x, more)
        ensures id in Final(x, more).ops.latest && Final(x, more).ops.latest[id].status.Terminal()
      {
        RunKeepsOver(x, more, id);
      }
    }
  }

  /** A new generation that adds the operation again is given the terminal snapshot again. */
  lemma ReAddRepeatsTerminal(x: Machine, op: Operation, verdict: Verdict, reason: string)
    requires Recorded(x) && Over(x, op.id)
    ensures var y := After(After(x, Add(op, verdict, reason)), Do(|x.todo|, false));
            && y.ops.queue == x.ops.queue + [x.ops.latest[op.id]]
            && y.ops.inner == x.ops.inner
            && y.ops.latest == x.ops.latest
            && y.todo == x.todo
  {
    var a := AddLocked(x.ops, op, verdict, reason, true).1;
    var z := After(x, Add(op, verdict, reason));
    assert z.todo == x.todo + [a];
    assert z.todo[..|x.todo|] + z.todo[|x.todo| + 1..] == x.todo;
  }

  /** The race is open whenever an accepted operation is added again while it runs: its live
      snapshot is read for repetition, the operation ends, and the late repetition makes the
      decorator forget that it ended. */
  lemma StaleRepeatForgetsTheEnd(x: Machine, op: Operation, end: Operation)
    requires Recorded(x) && op.id in x.ops.inner && op.id !in x.ended && op.id !in x.ops.held
    requires op.id in x.ops.latest && !x.ops.latest[op.id].status.Terminal()
    requires end.id == op.id && end.status.Terminal()
    ensures var steps := [Add(op, Allow, ""), Pump(end), Do(|x.todo|, true)];
            && Run(x, steps)
            && op.id in Final(x, steps).ended
            && op.id in Final(x, steps).ops.latest
            && Final(x, steps).ops.latest[op.id] == x.ops.latest[op.id]
  {
    var steps := [Add(op, Allow, ""), Pump(end), Do(|x.todo|, true)];
    var x1 := After(x, steps[0]);
    assert x1 == x.(todo := x.todo + [Emission(x.ops.latest[op.id], false)]);
    var x2 := After(x1, steps[1]);
    var x3 := After(x2, steps[2]);
    assert x3.ops == Emit(x2.ops, x.ops.latest[op.id]);
    Prepend(x2, steps, 2);
    Prepend(x1, steps, 1);
    Prepend(x, steps, 0);
    assert steps[0..] == steps && steps[3..] == [];
  }

  lemma Prepend(x: Machine, steps: seq<Step>, i: nat)
    requires i < |steps| && Enabled(x, steps[i])
    ensures Final(x, steps[i..]) == Final(After(x, steps[i]), steps[i + 1..])
    ensures Run(x, steps[i..]) <==> Run(After(x, steps[i]), steps[i + 1..])
  {
    assert steps[i..][1..] == steps[i + 1..];
  }

  // ---- time limits ----

  /** What a client decides is carried out: an approved operation is the inner manager's, or, if that
      refuses it, answered as failed; a rejected one is answered as canceled, for the reason given,
      and nothing else happens to it. */
  lemma DecisionsAreCarriedOut(x: Machine, id: OpId, allow: bool, reason: string, accepted: bool)
    requires id in x.ops.held && x.ops.held[id].id == id
    ensures var y := After(After(x, Decide(id, allow, reason)), Do(|x.todo|, accepted));
            && id !in y.ops.held && y.todo == x.todo
            && (if allow && accepted then y.ops.inner == x.ops.inner + [id] && y.ops.queue == x.ops.queue
                else
                  && y.ops.inner == x.ops.inner && id in y.ops.latest
                  && y.ops.queue == x.ops.queue + [y.ops.latest[id]]
                  && y.ops.latest[id].status == (if allow then Failed else Canceled)
                  && (x.ops.held[id].shell && !allow ==> y.ops.latest[id].note == reason))
  {
    var y1 := After(x, Decide(id, allow, reason));
    assert y1.todo[..|x.todo|] == x.todo && y1.todo[|x.todo| + 1..] == [];
  }

  /** A time limit stands only for an operation that is running. */
  predicate TimersRun(x: Machine) {
    && (forall id | id in x.ops.timers :: id in x.ops.inner && id !in x.ended)
    && (forall id | id in x.ended :: id in x.ops.inner)
  }

  lemma {:induction false} SettlingPositive(todo: seq<Action>, i: nat, id: OpId)
    requires i < |todo| && Settles(todo[i], id)
    ensures Settling(todo, id) > 0
  {
    SettlingRemove(todo, i, id);
  }

  lemma StepKeepsTimers(x: Machine, s: Step)
    requires TimersRun(x) && Enabled(x, s) && forall k :: OneFate(x, k)
    ensures TimersRun(After(x, s))
  {
    match s
    case Do(i, accepted) =>
      if x.todo[i].Forwarding? && accepted {
        var id := x.todo[i].op.id;
        SettlingPositive(x.todo, i, id);
        CountMember(x.ops.inner, id);
        assert OneFate(x, id);
      }
    case _ =>
  }

  lemma {:induction false} RunKeepsTimers(x: Machine, steps: seq<Step>)
    requires TimersRun(x) && Recorded(x) && Run(x, steps) && forall k :: OneFate(x, k)
    ensures TimersRun(Final(x, steps))
    decreases |steps|
  {
    if steps != [] {
      forall k
        ensures OneFate(After(x, steps[0]), k)
      {
        StepKeepsOneFate(x, steps[0], k);
      }
      StepKeepsRecorded(x, steps[0]);
      StepKeepsTimers(x, steps[0]);
      RunKeepsTimers(After(x, steps[0]), steps[1..]);
    }
  }

  /** A time limit never kills an operation that has ended, nor one that never started. */
  lemma KillSparesTheEnded(steps: seq<Step>, id: OpId)
    requires Run(START, steps) && Enabled(Final(START, steps), Kill(id))
    ensures var x := Final(START, steps);
            After(x, Kill(id)).ops.killed ==
            x.ops.killed + if id in x.ops.timers && id in x.ops.inner && id !in x.ended then [id] else []
  {
    RunKeepsTimers(START, steps);
    assert Final(START, steps).ops.killed + [] == Final(START, steps).ops.killed;
  }

  // ---- and every operation that runs has one ----

  /** The operation has ended, or the decorator answered it. */
  predicate Closed(x: Machine, id: OpId) {
    id in x.ended || id in x.made
  }

  /** A time limit stands exactly for the operations that run and were not killed. */
  ghost predicate Limited(x: Machine) {
    && (forall id :: id in x.ops.timers <==> id in x.ops.inner && id !in x.ended && id !in x.ops.killed)
    && (forall id | id in x.ended || id in x.ops.killed :: id in x.ops.inner)
    && (forall id | id in x.ops.latest && x.ops.latest[id].status.Terminal() :: Closed(x, id))
    && (forall a | a in x.todo && a.Emission? && !a.invented && a.snapshot.status.Terminal() ::
          Closed(x, a.snapshot.id))
  }

  /** What ended is not added as such: an added operation is ready or under way. */
  predicate LiveAdds(steps: seq<Step>) {
    forall i | 0 <= i < |steps| && steps[i].Add? :: !steps[i].op.status.Terminal()
  }

  lemma NotYetAccepted(x: Machine, id: OpId)
    requires OneFate(x, id)
    requires id in x.ops.held || id in x.made || exists i :: 0 <= i < |x.todo| && Settles(x.todo[i], id)
    ensures id !in x.ops.inner
  {
    if i :| 0 <= i < |x.todo| && Settles(x.todo[i], id) {
      SettlingPositive(x.todo, i, id);
    }
    CountMember(x.ops.inner, id);
    CountMember(x.made, id);
  }

  lemma AddLimited(x: Machine, s: Step)
    requires Limited(x) && Recorded(x) && s.Add? && !s.op.status.Terminal()
    ensures Limited(After(x, s))
  {
    var a := AddLocked(x.ops, s.op, s.verdict, s.reason, true).1;
    assert forall b | b in After(x, s).todo :: b in x.todo || b == a;
  }

  lemma CancelLimited(x: Machine, s: Step)
    requires Limited(x) && s.Cancel? && forall k :: OneFate(x, k)
    ensures Limited(After(x, s))
  {
    if s.id in x.ops.held {
      assert OneFate(x, s.id);
      NotYetAccepted(x, s.id);
    }
  }

  lemma DecideLimited(x: Machine, s: Step)
    requires Limited(x) && s.Decide?
    ensures Limited(After(x, s))
  {
    var a := DecideLocked(x.ops, s.id, s.allow, s.reason).1;
    assert forall b | b in After(x, s).todo :: b in x.todo || b == a;
  }

  lemma EmissionLimited(x: Machine, i: nat, accepted: bool)
    requires Limited(x) && i < |x.todo| && x.todo[i].Emission? && forall k :: OneFate(x, k)
    ensures Limited(After(x, Do(i, accepted)))
  {
    var a := x.todo[i];
    var id := a.snapshot.id;
    assert OneFate(x, id) && a in x.todo;
    if a.invented {
      assert Settles(x.todo[i], id);
      NotYetAccepted(x, id);
    } else if id in x.made {
      NotYetAccepted(x, id);
    }
    assert forall b | b in After(x, Do(i, accepted)).todo :: b in x.todo;
  }

  lemma ForwardLimited(x: Machine, i: nat, accepted: bool)
    requires Limited(x) && i < |x.todo| && x.todo[i].Forwarding? && forall k :: OneFate(x, k)
    ensures Limited(After(x, Do(i, accepted)))
  {
    var id := x.todo[i].op.id;
    assert OneFate(x, id) && Settles(x.todo[i], id);
    NotYetAccepted(x, id);
    assert forall b | b in After(x, Do(i, accepted)).todo :: b in x.todo;
  }

  lemma StepLimited(x: Machine, s: Step)
    requires Limited(x) && Recorded(x) && Enabled(x, s) && (forall k :: OneFate(x, k)) && LiveAdds([s])
    ensures Limited(After(x, s))
  {
    match s
    case Add(_, _, _) =>
      assert [s][0] == s;
      AddLimited(x, s);
    case Decide(_, _, _) => DecideLimited(x, s);
    case Cancel(_, _) => CancelLimited(x, s);
    case Do(i, accepted) =>
      if x.todo[i].Emission? {
        EmissionLimited(x, i, accepted);
      } else if x.todo[i].Forwarding? {
        ForwardLimited(x, i, accepted);
      } else {
        assert forall b | b in After(x, s).todo :: b in x.todo;
      }
    case _ =>
  }

  lemma {:induction false} RunLimited(x: Machine, steps: seq<Step>)
    requires Limited(x) && Recorded(x) && Run(x, steps) && LiveAdds(steps) && forall k :: OneFate(x, k)
    ensures Limited(Final(x, steps))
    decreases |steps|
  {
    if steps != [] {
      forall k
        ensures OneFate(After(x, steps[0]), k)
      {
        StepKeepsOneFate(x, steps[0], k);
      }
      StepKeepsRecorded(x, steps[0]);
      StepLimited(x, steps[0]);
      RunLimited(After(x, steps[0]), steps[1..]);
    }
  }

  /** No running operation escapes its limit: in every run, the time limit of an accepted operation
      stands until it ends or is killed; when it fires the operation is cancelled, and killed if
      the kill timer finds it running still. */
  lemma OverdueIsCancelledThenKilled(steps: seq<Step>, id: OpId)
    requires Run(START, steps) && LiveAdds(steps)
    ensures var x := Final(START, steps);
            && (id in x.ops.timers <==> id in x.ops.inner && id !in x.ended && id !in x.ops.killed)
            && (id in x.ops.timers ==>
                  var y := After(x, Step.Limit(id));
                  && Enabled(x, Step.Limit(id)) && y.ops.cancels == x.ops.cancels + [id]
                  && Enabled(y, Kill(id)) && After(y, Kill(id)).ops.killed == x.ops.killed + [id])
  {
    RunLimited(START, steps);
  }

  /** Delivery: what was handed over followed by what is queued is what Tap saw, in order. */
  lemma {:induction false} DeliveredInOrder(x: Machine, steps: seq<Step>)
    requires Run(x, steps) && x.ops.tapped == x.ops.delivered + x.ops.queue
    ensures var y := Final(x, steps); y.ops.tapped == y.ops.delivered + y.ops.queue
    decreases |steps|
  {
    if steps != [] {
      var y := After(x, steps[0]);
      StepDelivers(x, steps[0]);
      DeliveredInOrder(y, steps[1..]);
    }
  }

  lemma StepDelivers(x: Machine, s: Step)
    requires x.ops.tapped == x.ops.delivered + x.ops.queue
    ensures var y := After(x, s); y.ops.tapped == y.ops.delivered + y.ops.queue
  {
    var y := After(x, s);
    if s.Deliver? && x.ops.queue != [] {
      assert x.ops.queue == [x.ops.queue[0]] + x.ops.queue[1..];
      assert y.ops.delivered + y.ops.queue == x.ops.delivered + x.ops.queue;
    } else {
      TapsAndQueuesAlike(x, s);
      if y.ops.tapped != x.ops.tapped {
        var op :| y.ops.tapped == x.ops.tapped + [op] && y.ops.queue == x.ops.queue + [op];
        assert x.ops.delivered + (x.ops.queue + [op]) == (x.ops.delivered + x.ops.queue) + [op];
      }
    }
  }

  lemma TapsAndQueuesAlike(x: Machine, s: Step)
    requires s.Deliver? ==> x.ops.queue == []
    ensures var y := After(x, s);
            && y.ops.delivered == x.ops.delivered
            && ((y.ops.tapped == x.ops.tapped && y.ops.queue == x.ops.queue) ||
                exists op :: y.ops.tapped == x.ops.tapped + [op] && y.ops.queue == x.ops.queue + [op])
  {
  }
}
