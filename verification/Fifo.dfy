/** internal/fifo: an unbounded queue with a one-slot signal for its consumer. */
module Fifo {

  datatype QueueState<T> = QueueState(items: seq<T>, token: bool)

  datatype Look<T> = Found(item: T) | Nothing

  /** The locked half of Push. */
  function Append<T>(q: QueueState<T>, item: T): QueueState<T> {
    q.(items := q.items + [item])
  }

  /** The other half of Push: a send that does nothing when the slot is taken. */
  function Raise<T>(q: QueueState<T>): QueueState<T> {
    q.(token := true)
  }

  /** The locked half of one round of Pop. */
  function Take<T>(q: QueueState<T>): (QueueState<T>, Look<T>) {
    if q.items == [] then (q, Nothing) else (q.(items := q.items[1..]), Found(q.items[0]))
  }

  /** Receiving from the signal. */
  function Lower<T>(q: QueueState<T>): QueueState<T> {
    q.(token := false)
  }

  class Queue<T> {
    var items: seq<T>
    var token: bool

    function State(): QueueState<T>
      reads this
    {
      QueueState(items, token)
    }

    constructor ()
      ensures State() == QueueState([], false)
    {
      items, token := [], false;
    }

    method Push(item: T)
      modifies this
      ensures State() == Raise(Append(old(State()), item))
    {
      items := items + [item];
      if !token {
        token := true;
      }
    }

    /** Pop, as far as it gets without sleeping. */
    method TryPop() returns (look: Look<T>)
      modifies this
      ensures old(items) != [] ==> (State(), look) == Take(old(State()))
      ensures old(items) == [] ==> look == Nothing && State() == Lower(old(State()))
    {
      while true
        invariant items == old(items)
        invariant items != [] ==> token == old(token)
        decreases token
      {
        if |items| > 0 {
          look := Found(items[0]);
          items := items[1..];
          return;
        }
        if !token {
          return Nothing;
        }
        token := false;
      }
    }
  }

  // ---- every interleaving ----

  /** `raising` producers have appended and not yet signalled; `looking` consumers are about to
      look and `asleep` ones saw nothing and wait for the signal. */
  datatype Machine<T> = Machine(
    q: QueueState<T>, pushed: seq<T>, popped: seq<T>, raising: nat, looking: nat, asleep: nat)

  datatype Step<T> = AppendItem(item: T) | Signal | Enter | LookOnce | Wake | GiveUp

  predicate Enabled<T(!new)>(consumers: nat, x: Machine<T>, s: Step<T>) {
    match s
    case AppendItem(_) => true
    case Signal => x.raising > 0
    case Enter => x.looking + x.asleep < consumers
    case LookOnce => x.looking > 0
    case Wake => x.asleep > 0 && x.q.token
    case GiveUp => x.asleep > 0
  }

  function After<T>(x: Machine<T>, s: Step<T>): Machine<T> {
    match s
    case AppendItem(item) =>
      x.(q := Append(x.q, item), pushed := x.pushed + [item], raising := x.raising + 1)
    case Signal => if x.raising == 0 then x else x.(q := Raise(x.q), raising := x.raising - 1)
    case Enter => x.(looking := x.looking + 1)
    case LookOnce =>
      if x.looking == 0 then x
      else (match Take(x.q)
            case (q, Found(item)) => x.(q := q, popped := x.popped + [item], looking := x.looking - 1)
            case (q, Nothing) => x.(looking := x.looking - 1, asleep := x.asleep + 1))
    case Wake =>
      if x.asleep == 0 then x else x.(q := Lower(x.q), asleep := x.asleep - 1, looking := x.looking + 1)
    case GiveUp => if x.asleep == 0 then x else x.(asleep := x.asleep - 1)
  }

  function New<T>(): Machine<T> {
    Machine(QueueState([], false), [], [], 0, 0, 0)
  }

  function Final<T>(steps: seq<Step<T>>): Machine<T> {
    if steps == [] then New() else After(Final(steps[..|steps| - 1]), steps[|steps| - 1])
  }

  predicate Run<T(!new)>(consumers: nat, steps: seq<Step<T>>) {
    steps == [] ||
    (Run(consumers, steps[..|steps| - 1]) &&
     Enabled(consumers, Final(steps[..|steps| - 1]), steps[|steps| - 1]))
  }

  /** First in, first out, for any number of producers and consumers. */
  lemma {:induction false} FirstInFirstOut<T(!new)>(consumers: nat, steps: seq<Step<T>>)
    requires Run(consumers, steps)
    ensures var x := Final(steps); x.popped + x.q.items == x.pushed
  {
    if steps != [] {
      var x := Final(steps[..|steps| - 1]);
      FirstInFirstOut(consumers, steps[..|steps| - 1]);
      if x.q.items != [] {
        assert x.q.items == [x.q.items[0]] + x.q.items[1..];
      }
    }
  }

  /** A consumer that sleeps over a non-empty queue has a signal waiting or on its way. */
  predicate Awake<T>(x: Machine<T>) {
    x.asleep > 0 && x.q.items != [] ==> x.q.token || x.raising > 0
  }

  lemma {:induction false} OneConsumerStaysAwake<T(!new)>(steps: seq<Step<T>>)
    requires Run(1, steps)
    ensures Awake(Final(steps)) && Final(steps).looking + Final(steps).asleep <= 1
  {
    if steps != [] {
      OneConsumerStaysAwake(steps[..|steps| - 1]);
    }
  }

  lemma {:induction false} NoConsumers<T(!new)>(steps: seq<Step<T>>)
    requires Run(0, steps)
    ensures Final(steps).looking == 0 && Final(steps).asleep == 0
  {
    if steps != [] {
      NoConsumers(steps[..|steps| - 1]);
    }
  }

  lemma Extend<T(!new)>(consumers: nat, steps: seq<Step<T>>, s: Step<T>)
    requires Run(consumers, steps) && Enabled(consumers, Final(steps), s)
    ensures Run(consumers, steps + [s]) && Final(steps + [s]) == After(Final(steps), s)
  {
    assert (steps + [s])[..|steps|] == steps;
  }

  /** Two sleepers and two items: the second signal finds the slot taken, one consumer wakes and
      takes one item, the other sleeps on over the item that is left. */
  lemma TwoSleepersStarve<T(!new)>(consumers: nat, a: T) returns (steps: seq<Step<T>>)
    requires consumers >= 2
    ensures Run(consumers, steps) && !Awake(Final(steps))
  {
    steps := [];
    Extend(consumers, steps, Enter);
    steps := steps + [Enter];
    Extend(consumers, steps, LookOnce);
    steps := steps + [LookOnce];
    Extend(consumers, steps, Enter);
    steps := steps + [Enter];
    Extend(consumers, steps, LookOnce);
    steps := steps + [LookOnce];
    assert Final(steps) == Machine(QueueState([], false), [], [], 0, 0, 2);
    Extend(consumers, steps, AppendItem(a));
    steps := steps + [AppendItem(a)];
    Extend(consumers, steps, AppendItem(a));
    steps := steps + [AppendItem(a)];
    assert Final(steps) == Machine(QueueState([a, a], false), [a, a], [], 2, 0, 2);
    Extend(consumers, steps, Signal);
    steps := steps + [Signal];
    Extend(consumers, steps, Signal);
    steps := steps + [Signal];
    assert Final(steps) == Machine(QueueState([a, a], true), [a, a], [], 0, 0, 2);
    Extend(consumers, steps, Wake);
    steps := steps + [Wake];
    Extend(consumers, steps, LookOnce);
    steps := steps + [LookOnce];
  }

  /** No lost wake-up, exactly: it holds in every run if and only if there is at most one
      consumer, which is how the actor and the feeder use the queue. */
  lemma NoLostWakeupExactly<T(!new)>(consumers: nat, a: T)
    ensures (forall steps: seq<Step<T>> | Run(consumers, steps) :: Awake(Final(steps))) <==> consumers <= 1
  {
    if consumers >= 2 {
      var steps := TwoSleepersStarve(consumers, a);
    } else {
      forall steps: seq<Step<T>> | Run(consumers, steps)
        ensures Awake(Final(steps))
      {
        if consumers == 1 {
          OneConsumerStaysAwake(steps);
        } else {
          NoConsumers(steps);
        }
      }
    }
  }

  lemma WakeAndTake<T(!new)>(consumers: nat, steps: seq<Step<T>>)
    requires Run(consumers, steps)
    requires Final(steps).asleep > 0 && Final(steps).q.items != [] && Final(steps).q.token
    ensures Run(consumers, steps + [Wake, LookOnce])
    ensures Final(steps + [Wake, LookOnce]).popped == Final(steps).popped + [Final(steps).q.items[0]]
  {
    Extend(consumers, steps, Wake);
    Extend(consumers, steps + [Wake], LookOnce);
    assert steps + [Wake] + [LookOnce] == steps + [Wake, LookOnce];
  }

  /** A lone sleeper over a non-empty queue gets its oldest item after at most one producer's
      signal and two steps of its own. */
  lemma SleeperIsServed<T(!new)>(steps: seq<Step<T>>) returns (more: seq<Step<T>>)
    requires Run(1, steps) && Final(steps).asleep > 0 && Final(steps).q.items != []
    ensures |more| <= 3 && Run(1, steps + more)
    ensures Final(steps + more).popped == Final(steps).popped + [Final(steps).q.items[0]]
  {
    if Final(steps).q.token {
      WakeAndTake(1, steps);
      more := [Wake, LookOnce];
    } else {
      OneConsumerStaysAwake(steps);
      Extend(1, steps, Signal);
      WakeAndTake(1, steps + [Signal]);
      more := [Signal, Wake, LookOnce];
      assert steps + [Signal] + [Wake, LookOnce] == steps + more;
    }
  }
}
