/** What the mirror's incremental answer says about a log, by positions alone. */
module MirrorLog {
  import opened Harness
  import opened Mirrors

  /** Position of the newest turn item, or -1. */
  function NewestTurn(log: seq<Item>): (i: int)
    ensures -1 <= i < |log|
    ensures i >= 0 ==> log[i].Turn?
    ensures forall j | i < j < |log| :: !log[j].Turn?
  {
    if log == [] then -1
    else if log[|log| - 1].Turn? then |log| - 1
    else NewestTurn(log[..|log| - 1])
  }

  function TurnInForce(log: seq<Item>): TurnId {
    var i := NewestTurn(log);
    if i < 0 then NO_ID else log[i].turnId
  }

  /** The item at `i` is a response to the turn that was newest when it was appended. */
  predicate Accepted(log: seq<Item>, i: int) {
    0 <= i < |log| && log[i].ModelResponse? && log[i].answers == TurnInForce(log[..i])
  }

  predicate Asks(log: seq<Item>, i: int, c: CallId) {
    Accepted(log, i) && c in CallIds(log[i].response.output)
  }

  /** The item at `i` settles call `c`: a fork, or a status that ends it. */
  predicate Settles(log: seq<Item>, i: int, c: CallId) {
    0 <= i < |log| &&
    (log[i].Fork? || (log[i].CallStatus? && log[i].status.callId == c && Finishes(log[i].status)))
  }

  /** Some accepted response asked for `c` and nothing settled it since. */
  ghost predicate Open(log: seq<Item>, c: CallId) {
    exists i :: Asks(log, i, c) && forall j | i < j < |log| :: !Settles(log, j, c)
  }

  /** The item at `j` gives the model something to answer. */
  ghost predicate Wakes(log: seq<Item>, j: int, reason: Reason) {
    && 0 <= j < |log|
    && match log[j]
       case Input(id, External) => reason == InputReason(id)
       case Input(id, Heartbeat) => reason == HeartbeatReason(id)
       case CallStatus(status) =>
         reason == CallReason(status.callId) && Finishes(status) && Open(log[..j], status.callId)
       case _ => false
  }

  /** No turn at all, or an accepted response after the newest one. */
  ghost predicate NewestAnswered(log: seq<Item>) {
    NewestTurn(log) < 0 || exists i :: i > NewestTurn(log) && Accepted(log, i)
  }

  ghost predicate Idle(log: seq<Item>) {
    && NewestAnswered(log)
    && (forall j, reason | j > NewestTurn(log) :: !Wakes(log, j, reason))
    && (forall c :: !Open(log, c))
  }

  // ---- one more item ----

  lemma AcceptedExtends(log: seq<Item>, item: Item)
    ensures forall i | 0 <= i < |log| :: Accepted(log + [item], i) == Accepted(log, i)
    ensures Accepted(log + [item], |log|) == (item.ModelResponse? && item.answers == TurnInForce(log))
  {
    var next := log + [item];
    assert next[..|log|] == log;
    forall i | 0 <= i < |log|
      ensures Accepted(next, i) == Accepted(log, i)
    {
      assert next[..i] == log[..i];
    }
  }

  lemma OpenExtends(log: seq<Item>, item: Item, c: CallId)
    ensures Open(log + [item], c) ==
            (Asks(log + [item], |log|, c) || (Open(log, c) && !Settles(log + [item], |log|, c)))
  {
    var next := log + [item];
    AcceptedExtends(log, item);
    if Open(next, c) {
      var i :| Asks(next, i, c) && forall j | i < j < |next| :: !Settles(next, j, c);
      if i < |log| {
        assert Asks(log, i, c);
        forall j | i < j < |log|
          ensures !Settles(log, j, c)
        {
          assert !Settles(next, j, c);
        }
        assert !Settles(next, |log|, c);
      }
    }
    if Asks(next, |log|, c) {
      assert Open(next, c);
    } else if Open(log, c) && !Settles(next, |log|, c) {
      var i :| Asks(log, i, c) && forall j | i < j < |log| :: !Settles(log, j, c);
      assert Asks(next, i, c);
      forall j | i < j < |next|
        ensures !Settles(next, j, c)
      {
        assert j < |log| ==> Settles(next, j, c) == Settles(log, j, c);
      }
    }
  }

  lemma WakesExtends(log: seq<Item>, item: Item, reason: Reason)
    ensures forall j | 0 <= j < |log| :: Wakes(log + [item], j, reason) == Wakes(log, j, reason)
  {
    forall j | 0 <= j < |log|
      ensures Wakes(log + [item], j, reason) == Wakes(log, j, reason)
    {
      assert (log + [item])[..j] == log[..j];
    }
  }

  lemma NewestTurnExtends(log: seq<Item>, item: Item)
    ensures NewestTurn(log + [item]) == if item.Turn? then |log| else NewestTurn(log)
  {
    assert (log + [item])[..|log|] == log;
  }

  // ---- each field of the fold, position by position ----

  /** The counter is the length of the list it counts, in every reachable mirror. */
  lemma {:induction false} PendingCountsReasons(log: seq<Item>)
    ensures Fold(log).pending == |Fold(log).reasons|
  {
    if log != [] {
      PendingCountsReasons(log[..|log| - 1]);
    }
  }

  lemma {:induction false} LastTurnIsNewest(log: seq<Item>)
    ensures Fold(log).lastTurn == TurnInForce(log)
  {
    if log != [] {
      LastTurnIsNewest(log[..|log| - 1]);
    }
  }

  /** A request is in flight exactly while the newest turn has no response to it; responses to
      superseded turns never count. */
  lemma {:induction false} InflightMeansUnanswered(log: seq<Item>)
    ensures Fold(log).inflight <==> !NewestAnswered(log)
  {
    if log != [] {
      var before, item := log[..|log| - 1], log[|log| - 1];
      assert log == before + [item];
      InflightMeansUnanswered(before);
      LastTurnIsNewest(before);
      AcceptedExtends(before, item);
      NewestTurnExtends(before, item);
      if item.Turn? {
        assert forall i | i > NewestTurn(log) :: !Accepted(log, i);
      } else if Accepted(log, |before|) {
        assert NewestAnswered(log);
      } else {
        assert forall i :: i > NewestTurn(log) && Accepted(log, i) ==> Accepted(before, i);
        assert forall i :: i > NewestTurn(log) && Accepted(before, i) ==> Accepted(log, i);
      }
    }
  }

  lemma {:induction false} OutstandingMeansOpen(log: seq<Item>, c: CallId)
    ensures c in Fold(log).outstanding <==> Open(log, c)
  {
    if log == [] {
      assert !Open(log, c);
    } else {
      var before, item := log[..|log| - 1], log[|log| - 1];
      assert log == before + [item];
      OutstandingMeansOpen(before, c);
      LastTurnIsNewest(before);
      OpenExtends(before, item, c);
      AcceptedExtends(before, item);
    }
  }

  /** The reasons are exactly what woke the model since the newest turn. */
  lemma {:induction false} ReasonsAreWakes(log: seq<Item>, reason: Reason)
    ensures reason in Fold(log).reasons <==> exists j :: j > NewestTurn(log) && Wakes(log, j, reason)
  {
    if log != [] {
      var before, item := log[..|log| - 1], log[|log| - 1];
      assert log == before + [item];
      assert log[..|before|] == before;
      ReasonsAreWakes(before, reason);
      WakesExtends(before, item, reason);
      NewestTurnExtends(before, item);
      if item.CallStatus? {
        OutstandingMeansOpen(before, item.status.callId);
      }
      var newest := NewestTurn(log);
      assert reason in Fold(log).reasons <==>
        !item.Turn? && (reason in Fold(before).reasons || Wakes(log, |before|, reason));
      if reason in Fold(log).reasons {
        if reason in Fold(before).reasons {
          var j :| j > NewestTurn(before) && Wakes(before, j, reason);
          assert Wakes(log, j, reason);
        }
      } else if j :| j > newest && Wakes(log, j, reason) {
        assert j < |before| ==> Wakes(before, j, reason);
      }
    }
  }

  /** Log characterisation: the incremental mirror calls a log quiescent exactly when the newest
      turn is answered, nothing woke the model after it, and every accepted call is settled. */
  lemma QuiescentMeansIdle(log: seq<Item>)
    ensures Fold(log).Quiescent() <==> Idle(log)
  {
    var m := Fold(log);
    InflightMeansUnanswered(log);
    PendingCountsReasons(log);
    forall c
      ensures c in m.outstanding <==> Open(log, c)
    {
      OutstandingMeansOpen(log, c);
    }
    forall reason
      ensures reason in m.reasons <==> exists j :: j > NewestTurn(log) && Wakes(log, j, reason)
    {
      ReasonsAreWakes(log, reason);
    }
    assert m.reasons != [] ==> m.reasons[0] in m.reasons;
    assert m.outstanding != map[] ==> exists c :: c in m.outstanding;
    if m.Quiescent() {
      assert m.reasons == [];
      forall j, reason | j > NewestTurn(log)
        ensures !Wakes(log, j, reason)
      {
        assert reason !in m.reasons;
      }
      assert forall c :: c !in m.outstanding;
    }
  }
}
