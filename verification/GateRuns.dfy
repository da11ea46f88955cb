/** Partial text over whole runs of the gate, whatever interleaves. */
module GateRuns {
  import opened Harness
  import opened Mirrors
  import opened Gates

  datatype Step =
    | Park(calls: set<CallId>, inputs: set<InputId>)
    | Cancel
    | Stream(d: Delta)
    | Ask(reasons: seq<Reason>, mutedId: ResponseId)
    | Return(r: InnerResult)

  /** Requests do not overlap; deltas carry the number of a request already made. */
  predicate Enabled(g: GateState, s: Step) {
    match s
    case Ask(_, _) => !g.inflight
    case Return(_) => g.inflight
    case Stream(d) => d.seqNo <= g.seqNo
    case _ => true
  }

  function After(g: GateState, s: Step): GateState {
    match s
    case Park(calls, inputs) => ParkThese(g, calls, inputs)
    case Cancel => StopInflight(g)
    case Stream(d) => Observe(g, d)
    case Ask(reasons, mutedId) => Begin(g, reasons, mutedId).0
    case Return(r) => End(g, g.inflightSeq, r).0
  }

  function Final(steps: seq<Step>): GateState {
    if steps == [] then OPEN else After(Final(steps[..|steps| - 1]), steps[|steps| - 1])
  }

  predicate Run(steps: seq<Step>) {
    steps == [] ||
    (Run(steps[..|steps| - 1]) && Enabled(Final(steps[..|steps| - 1]), steps[|steps| - 1]))
  }

  predicate TextOf(s: Step, q: nat) {
    s.Stream? && s.d.seqNo == q && s.d.kind.Text?
  }

  /** The attempt of the newest text of request `q`. */
  function NewestAttempt(steps: seq<Step>, q: nat): Option<nat> {
    if steps == [] then None
    else if TextOf(steps[|steps| - 1], q) then Some(steps[|steps| - 1].d.attempt)
    else NewestAttempt(steps[..|steps| - 1], q)
  }

  /** Everything attempt `a` of request `q` streamed, in order, and nothing else. */
  function Streamed(steps: seq<Step>, q: nat, a: nat): string {
    if steps == [] then ""
    else
      var s := steps[|steps| - 1];
      Streamed(steps[..|steps| - 1], q, a) + if TextOf(s, q) && s.d.attempt == a then s.d.kind.text else ""
  }

  /** The attempts of request `q` are numbered upwards: a later text never belongs to an earlier
      attempt. */
  predicate Ordered(steps: seq<Step>, q: nat) {
    forall i, j | 0 <= i < j < |steps| && TextOf(steps[i], q) && TextOf(steps[j], q) ::
      steps[i].d.attempt <= steps[j].d.attempt
  }

  /** The text of attempt `a` that came before a text of another attempt: the gate started afresh
      for that one, and forgot it. */
  function Lost(steps: seq<Step>, q: nat, a: nat): string {
    if steps == [] then ""
    else
      var s := steps[|steps| - 1];
      if TextOf(s, q) && s.d.attempt != a then Streamed(steps[..|steps| - 1], q, a)
      else Lost(steps[..|steps| - 1], q, a)
  }

  /** Nothing attempt `a` of request `q` streamed came before a text of another attempt. */
  predicate Uninterrupted(steps: seq<Step>, q: nat, a: nat) {
    forall i, j | 0 <= i < j < |steps| && TextOf(steps[i], q) && TextOf(steps[j], q) &&
                  steps[i].d.attempt == a && steps[j].d.attempt != a :: steps[i].d.kind.text == ""
  }

  /** What the gate has of request `q`, and what it lost of its newest attempt, are all of that
      attempt's text. */
  predicate Keeps(g: GateState, steps: seq<Step>, q: nat) {
    && (q in g.partial <==> NewestAttempt(steps, q).Some?)
    && (q in g.partial ==>
          && q in g.partialAttempt
          && NewestAttempt(steps, q) == Some(g.partialAttempt[q])
          && Streamed(steps, q, g.partialAttempt[q]) == Lost(steps, q, g.partialAttempt[q]) + g.partial[q])
  }

  lemma OneMoreStep(steps: seq<Step>, s: Step, q: nat)
    ensures NewestAttempt(steps + [s], q) == if TextOf(s, q) then Some(s.d.attempt) else NewestAttempt(steps, q)
    ensures forall a :: Streamed(steps + [s], q, a) ==
                        Streamed(steps, q, a) + if TextOf(s, q) && s.d.attempt == a then s.d.kind.text else ""
  {
    assert (steps + [s])[..|steps|] == steps;
  }

  lemma OneMoreLoss(steps: seq<Step>, s: Step, q: nat)
    ensures forall a :: Lost(steps + [s], q, a) ==
                        if TextOf(s, q) && s.d.attempt != a then Streamed(steps, q, a) else Lost(steps, q, a)
  {
    assert (steps + [s])[..|steps|] == steps;
  }

  /** What an attempt that is not the newest streamed is all lost. */
  lemma {:induction false} OlderIsLost(steps: seq<Step>, q: nat, a: nat)
    requires NewestAttempt(steps, q) != Some(a)
    ensures Streamed(steps, q, a) == Lost(steps, q, a)
  {
    if steps != [] {
      if !TextOf(steps[|steps| - 1], q) {
        OlderIsLost(steps[..|steps| - 1], q, a);
      }
    }
  }

  lemma TextKeeps(g: GateState, steps: seq<Step>, d: Delta)
    requires Keeps(g, steps, d.seqNo) && d.kind.Text?
    ensures Keeps(Observe(g, d), steps + [Stream(d)], d.seqNo)
  {
    OneMoreStep(steps, Stream(d), d.seqNo);
    OneMoreLoss(steps, Stream(d), d.seqNo);
    if NewestAttempt(steps, d.seqNo) != Some(d.attempt) {
      OlderIsLost(steps, d.seqNo, d.attempt);
    }
  }

  lemma StreamKeeps(g: GateState, steps: seq<Step>, d: Delta, q: nat)
    requires Keeps(g, steps, q)
    ensures Keeps(Observe(g, d), steps + [Stream(d)], q)
  {
    if TextOf(Stream(d), q) {
      TextKeeps(g, steps, d);
    } else {
      OneMoreStep(steps, Stream(d), q);
      OneMoreLoss(steps, Stream(d), q);
    }
  }

  /** Numbers not yet given out have left no trace in the gate. */
  predicate Numbered(g: GateState) {
    g.inflightSeq <= g.seqNo && forall q | q in g.partial :: q <= g.seqNo
  }

  lemma StreamNumbered(g: GateState, d: Delta)
    requires Numbered(g) && d.seqNo <= g.seqNo
    ensures Numbered(Observe(g, d)) && g.seqNo == Observe(g, d).seqNo
  {
  }

  lemma AskNumbered(g: GateState, reasons: seq<Reason>, mutedId: ResponseId)
    requires Numbered(g)
    ensures Numbered(Begin(g, reasons, mutedId).0) && g.seqNo <= Begin(g, reasons, mutedId).0.seqNo
  {
  }

  lemma StepNumbered(g: GateState, s: Step)
    requires Numbered(g) && Enabled(g, s)
    ensures Numbered(After(g, s)) && g.seqNo <= After(g, s).seqNo
  {
    match s
    case Stream(d) => StreamNumbered(g, d);
    case Ask(reasons, mutedId) => AskNumbered(g, reasons, mutedId);
    case Return(r) => EndForgets(g, g.inflightSeq, r);
    case _ =>
  }

  lemma {:induction false} FutureIsSilent(steps: seq<Step>, q: nat)
    requires Run(steps)
    ensures Numbered(Final(steps))
    ensures q > Final(steps).seqNo ==> NewestAttempt(steps, q) == None
  {
    if steps != [] {
      FutureIsSilent(steps[..|steps| - 1], q);
      StepNumbered(Final(steps[..|steps| - 1]), steps[|steps| - 1]);
    }
  }

  /** Steps that stream nothing leave the record of the request in flight alone. */
  lemma QuietStepKeeps(g: GateState, steps: seq<Step>, s: Step, q: nat)
    requires Keeps(g, steps, q) && (s.Park? || s.Cancel?)
    ensures Keeps(After(g, s), steps + [s], q)
  {
    OneMoreStep(steps, s, q);
    OneMoreLoss(steps, s, q);
  }

  lemma AskKeeps(g: GateState, steps: seq<Step>, s: Step)
    requires s.Ask? && Enabled(g, s) && Numbered(g) && NewestAttempt(steps, g.seqNo + 1) == None
    ensures After(g, s).inflight ==> Keeps(After(g, s), steps + [s], After(g, s).inflightSeq)
  {
    OneMoreStep(steps, s, g.seqNo + 1);
    assert g.seqNo + 1 !in g.partial;
  }

  lemma StepKeeps(g: GateState, before: seq<Step>, s: Step)
    requires Numbered(g) && Enabled(g, s)
    requires NewestAttempt(before, g.seqNo + 1) == None
    requires g.inflight ==> Keeps(g, before, g.inflightSeq)
    ensures After(g, s).inflight ==> Keeps(After(g, s), before + [s], After(g, s).inflightSeq)
  {
    match s
    case Stream(d) =>
      if g.inflight {
        StreamKeeps(g, before, d, g.inflightSeq);
      }
    case Ask(_, _) => AskKeeps(g, before, s);
    case Return(r) => EndForgets(g, g.inflightSeq, r);
    case _ =>
      if g.inflight {
        QuietStepKeeps(g, before, s, g.inflightSeq);
      }
  }

  /** In every run, whatever the attempts' numbers, the request in flight has on record all of its
      newest text-bearing attempt but what came before a text of another attempt. */
  lemma {:induction false} InflightKeeps(steps: seq<Step>)
    requires Run(steps)
    ensures Final(steps).inflight ==> Keeps(Final(steps), steps, Final(steps).inflightSeq)
  {
    if steps != [] {
      var before, s := steps[..|steps| - 1], steps[|steps| - 1];
      assert steps == before + [s];
      InflightKeeps(before);
      FutureIsSilent(before, Final(before).seqNo + 1);
      StepKeeps(Final(before), before, s);
    }
  }

  // ---- when nothing is lost ----

  lemma {:induction false} StreamedEmpty(steps: seq<Step>, q: nat, a: nat)
    ensures Streamed(steps, q, a) == "" <==>
            forall i | 0 <= i < |steps| && TextOf(steps[i], q) && steps[i].d.attempt == a :: steps[i].d.kind.text == ""
  {
    if steps != [] {
      var before, s := steps[..|steps| - 1], steps[|steps| - 1];
      StreamedEmpty(before, q, a);
      assert forall i | 0 <= i < |before| :: before[i] == steps[i];
      if TextOf(s, q) && s.d.attempt == a {
        assert |Streamed(steps, q, a)| == |Streamed(before, q, a)| + |s.d.kind.text|;
      }
    }
  }

  lemma {:induction false} LostMeansInterrupted(steps: seq<Step>, q: nat, a: nat)
    ensures Lost(steps, q, a) == "" <==> Uninterrupted(steps, q, a)
  {
    if steps != [] {
      var before, s := steps[..|steps| - 1], steps[|steps| - 1];
      LostMeansInterrupted(before, q, a);
      assert forall i | 0 <= i < |before| :: before[i] == steps[i];
      if TextOf(s, q) && s.d.attempt != a {
        StreamedEmpty(before, q, a);
        if Uninterrupted(steps, q, a) {
          forall i | 0 <= i < |before| && TextOf(before[i], q) && before[i].d.attempt == a
            ensures before[i].d.kind.text == ""
          {
            assert steps[i] == before[i] && steps[|before|] == s;
          }
        }
      } else if Uninterrupted(before, q, a) {
        forall i, j | 0 <= i < j < |steps| && TextOf(steps[i], q) && TextOf(steps[j], q) &&
                      steps[i].d.attempt == a && steps[j].d.attempt != a
          ensures steps[i].d.kind.text == ""
        {
          assert j < |before|;
        }
      }
    }
  }

  lemma {:induction false} NewestIsGreatest(steps: seq<Step>, q: nat)
    requires Ordered(steps, q)
    ensures forall i | 0 <= i < |steps| && TextOf(steps[i], q) ::
              NewestAttempt(steps, q).Some? && steps[i].d.attempt <= NewestAttempt(steps, q).value
  {
    if steps != [] {
      var before := steps[..|steps| - 1];
      assert forall i | 0 <= i < |before| :: before[i] == steps[i];
      NewestIsGreatest(before, q);
    }
  }

  /** Attempts numbered upwards, as the transport numbers them, lose nothing of the newest. */
  lemma OrderedIsUninterrupted(steps: seq<Step>, q: nat)
    requires Ordered(steps, q) && NewestAttempt(steps, q).Some?
    ensures Uninterrupted(steps, q, NewestAttempt(steps, q).value)
  {
    NewestIsGreatest(steps, q);
  }

  // ---- which request is stopped ----

  /** A cancel came after the newest request began. */
  predicate Stopped(steps: seq<Step>) {
    exists i | 0 <= i < |steps| && steps[i].Cancel? :: forall j | i < j < |steps| :: !steps[j].Ask?
  }

  lemma StoppedExtends(steps: seq<Step>, s: Step)
    ensures Stopped(steps + [s]) <==> s.Cancel? || (Stopped(steps) && !s.Ask?)
  {
    var next := steps + [s];
    assert next[|steps|] == s && forall j | 0 <= j < |steps| :: next[j] == steps[j];
    if Stopped(next) && !s.Cancel? {
      var i :| 0 <= i < |next| && next[i].Cancel? && forall j | i < j < |next| :: !next[j].Ask?;
      assert steps[i].Cancel?;
    }
    if Stopped(steps) && !s.Ask? {
      var i :| 0 <= i < |steps| && steps[i].Cancel? && forall j | i < j < |steps| :: !steps[j].Ask?;
      assert next[i].Cancel?;
    }
  }

  lemma StepStops(g: GateState, s: Step)
    requires Enabled(g, s) && g.userStop <= g.inflightSeq <= g.seqNo
    ensures var y := After(g, s);
            && y.userStop <= y.inflightSeq <= y.seqNo
            && (y.inflight ==> g.inflight || s.Ask?)
            && (y.inflight ==>
                  (y.userStop == y.inflightSeq <==> s.Cancel? || (!s.Ask? && g.userStop == g.inflightSeq)))
  {
    match s
    case Return(r) => EndForgets(g, g.inflightSeq, r);
    case Stream(d) =>
      var y := Observe(g, d);
      assert y.userStop == g.userStop && y.inflightSeq == g.inflightSeq && y.seqNo == g.seqNo;
    case Ask(reasons, mutedId) => assert Begin(g, reasons, mutedId).0.userStop == g.userStop;
    case _ =>
  }

  /** The gate's mark is on the request in flight exactly if a cancel came since it began. */
  lemma {:induction false} StopMarks(steps: seq<Step>)
    requires Run(steps)
    ensures Final(steps).userStop <= Final(steps).inflightSeq <= Final(steps).seqNo
    ensures Final(steps).inflight ==> (Final(steps).userStop == Final(steps).inflightSeq <==> Stopped(steps))
  {
    if steps != [] {
      var before, s := steps[..|steps| - 1], steps[|steps| - 1];
      assert steps == before + [s];
      StopMarks(before);
      StoppedExtends(before, s);
      StepStops(Final(before), s);
    }
  }

  /** What a stopped request should answer: what its newest text-bearing attempt streamed. */
  function NewestText(steps: seq<Step>, q: nat): string {
    if NewestAttempt(steps, q).Some? then Streamed(steps, q, NewestAttempt(steps, q).value) else ""
  }

  /** Partial-text exactness, exactly: whatever else streams, parks or ends in between, a stopped
      request answers with precisely the text of its newest text-bearing attempt if and only if
      that attempt streamed nothing before a text of another attempt of the same request. */
  lemma StoppedAnswerIsExactlyUninterrupted(steps: seq<Step>, r: InnerResult)
    requires Run(steps) && Enabled(Final(steps), Return(r))
    requires Stopped(steps) && !r.ctxDone
    ensures var q := Final(steps).inflightSeq;
            var reply, text := End(Final(steps), q, r).1, NewestText(steps, q);
            && reply.Reply? && reply.outcome == Cancelled
            && (reply.response.output == (if text == "" then [] else [Message(text)]) <==>
                (NewestAttempt(steps, q).Some? ==> Uninterrupted(steps, q, NewestAttempt(steps, q).value)))
  {
    InflightKeeps(steps);
    StopMarks(steps);
    var q := Final(steps).inflightSeq;
    SameAnswer(Kept(Final(steps), q), NewestText(steps, q));
    if NewestAttempt(steps, q).Some? {
      var a := NewestAttempt(steps, q).value;
      LostMeansInterrupted(steps, q, a);
      assert |NewestText(steps, q)| == |Lost(steps, q, a)| + |Kept(Final(steps), q)|;
    }
  }

  lemma SameAnswer(a: string, b: string)
    ensures (if a == "" then [] else [Message(a)]) == (if b == "" then [] else [Message(b)]) <==> a == b
  {
    if a != "" && b != "" && a != b {
      assert [Message(a)][0] != [Message(b)][0];
    }
  }

  /** So it is with the attempts the transport numbers: each request counts its own upwards. */
  lemma StoppedAnswerIsExact(steps: seq<Step>, r: InnerResult)
    requires Run(steps) && Ordered(steps, Final(steps).inflightSeq) && Enabled(Final(steps), Return(r))
    requires Stopped(steps) && !r.ctxDone
    ensures var q := Final(steps).inflightSeq;
            var reply, text := End(Final(steps), q, r).1, NewestText(steps, q);
            && reply.Reply? && reply.outcome == Cancelled
            && reply.response.output == if text == "" then [] else [Message(text)]
  {
    StoppedAnswerIsExactlyUninterrupted(steps, r);
    if NewestAttempt(steps, Final(steps).inflightSeq).Some? {
      OrderedIsUninterrupted(steps, Final(steps).inflightSeq);
    }
  }

  /** Otherwise text is lost: attempt 1, then 2, then 1 again answers only the last piece. */
  lemma ResumedAttemptLosesText(r: InnerResult) returns (steps: seq<Step>)
    requires !r.ctxDone
    ensures Run(steps) && Enabled(Final(steps), Return(r)) && Final(steps).inflightSeq == 1 && Stopped(steps)
    ensures NewestText(steps, 1) == "ac" && End(Final(steps), 1, r).1.response.output == [Message("c")]
  {
    var ask := [Ask([], 1)];
    var one := ask + [Stream(Delta(1, 1, Text("a")))];
    var two := one + [Stream(Delta(1, 2, Text("b")))];
    var three := two + [Stream(Delta(1, 1, Text("c")))];
    steps := three + [Cancel];
    assert ask[..0] == [] && one[..1] == ask && two[..2] == one && three[..3] == two && steps[..4] == three;
    assert Run(ask) && Run(one) && Run(two) && Run(three);
    assert Final(one).partial[1] == "" + "a" == "a";
    assert Final(three).partial[1] == "" + "c" == "c";
    TextTwice(ask, one, two, three);
  }

  lemma TextTwice(ask: seq<Step>, one: seq<Step>, two: seq<Step>, three: seq<Step>)
    requires ask == [Ask([], 1)] && one == ask + [Stream(Delta(1, 1, Text("a")))]
    requires two == one + [Stream(Delta(1, 2, Text("b")))] && three == two + [Stream(Delta(1, 1, Text("c")))]
    ensures NewestText(three + [Cancel], 1) == "ac"
  {
    OneMoreStep(three, Cancel, 1);
    OneMoreStep(two, Stream(Delta(1, 1, Text("c"))), 1);
    OneMoreStep(one, Stream(Delta(1, 2, Text("b"))), 1);
    OneMoreStep(ask, Stream(Delta(1, 1, Text("a"))), 1);
    OneMoreStep([], Ask([], 1), 1);
    assert ask == [] + ask;
    assert Streamed(ask, 1, 1) == "" && Streamed(one, 1, 1) == "a" && Streamed(two, 1, 1) == "a";
  }
}
