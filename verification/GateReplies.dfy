/** What the gate answers a request, over whole runs: when itself, and with what otherwise. */
module GateReplies {
  import opened Harness
  import opened Mirrors
  import opened Gates
  import opened GateRuns

  predicate CreatedOf(s: Step, q: nat) {
    s.Stream? && s.d.seqNo == q && s.d.kind.Created?
  }

  predicate ServedOf(s: Step, q: nat) {
    s.Stream? && s.d.seqNo == q && s.d.kind.Served?
  }

  /** The response id request `q` streamed last, if it streamed one. */
  function NewestCreated(steps: seq<Step>, q: nat): ResponseId {
    if steps == [] then NO_ID
    else if CreatedOf(steps[|steps| - 1], q) then steps[|steps| - 1].d.kind.id
    else NewestCreated(steps[..|steps| - 1], q)
  }

  /** The model request `q` was served by, as it streamed last. */
  function NewestServed(steps: seq<Step>, q: nat): nat {
    if steps == [] then NO_ID
    else if ServedOf(steps[|steps| - 1], q) then steps[|steps| - 1].d.kind.model
    else NewestServed(steps[..|steps| - 1], q)
  }

  /** The gate's notes on request `q` are what it streamed last. */
  predicate Notes(g: GateState, steps: seq<Step>, q: nat) {
    Get(g.created, q) == NewestCreated(steps, q) && Get(g.served, q) == NewestServed(steps, q)
  }

  lemma NotesExtend(steps: seq<Step>, s: Step, q: nat)
    ensures NewestCreated(steps + [s], q) == if CreatedOf(s, q) then s.d.kind.id else NewestCreated(steps, q)
    ensures NewestServed(steps + [s], q) == if ServedOf(s, q) then s.d.kind.model else NewestServed(steps, q)
  {
    assert (steps + [s])[..|steps|] == steps;
  }

  lemma StreamNotes(g: GateState, before: seq<Step>, d: Delta, q: nat)
    requires Notes(g, before, q)
    ensures Notes(Observe(g, d), before + [Stream(d)], q)
  {
    NotesExtend(before, Stream(d), q);
    match d.kind
    case Served(model) => assert Observe(g, d).created == g.created;
    case Created(id) => assert Observe(g, d).served == g.served;
    case _ => assert Observe(g, d).created == g.created && Observe(g, d).served == g.served;
  }

  lemma EndNotes(g: GateState, before: seq<Step>, r: InnerResult, q: nat)
    requires Notes(g, before, q) && q != g.inflightSeq
    ensures Notes(End(g, g.inflightSeq, r).0, before + [Return(r)], q)
  {
    NotesExtend(before, Return(r), q);
    EndForgets(g, g.inflightSeq, r);
  }

  lemma BeginNotes(g: GateState, before: seq<Step>, reasons: seq<Reason>, mutedId: ResponseId, q: nat)
    requires Notes(g, before, q)
    ensures Notes(Begin(g, reasons, mutedId).0, before + [Ask(reasons, mutedId)], q)
  {
    NotesExtend(before, Ask(reasons, mutedId), q);
  }

  lemma StepNotes(g: GateState, before: seq<Step>, s: Step, q: nat)
    requires Notes(g, before, q) && (s.Return? ==> q != g.inflightSeq)
    ensures Notes(After(g, s), before + [s], q)
  {
    match s
    case Stream(d) => StreamNotes(g, before, d, q);
    case Return(r) => EndNotes(g, before, r, q);
    case Ask(reasons, mutedId) => BeginNotes(g, before, reasons, mutedId, q);
    case _ => NotesExtend(before, s, q);
  }

  lemma StepNumbers(g: GateState, s: Step)
    requires Enabled(g, s) && g.inflightSeq <= g.seqNo
    ensures var y := After(g, s);
            && g.seqNo <= y.seqNo && y.inflightSeq <= y.seqNo
            && (y.inflight ==> (g.inflight && !s.Return? && y.inflightSeq == g.inflightSeq) ||
                               (s.Ask? && y.inflightSeq == g.seqNo + 1))
  {
    if s.Return? {
      EndForgets(g, g.inflightSeq, s.r);
    }
  }

  /** In every run the notes on the request in flight are what it streamed last. */
  lemma {:induction false} InflightNotes(steps: seq<Step>)
    requires Run(steps)
    ensures Final(steps).inflightSeq <= Final(steps).seqNo
    ensures Final(steps).inflight ==> Notes(Final(steps), steps, Final(steps).inflightSeq)
    ensures forall q | q > Final(steps).seqNo :: Notes(Final(steps), steps, q)
  {
    if steps != [] {
      var before, s := steps[..|steps| - 1], steps[|steps| - 1];
      assert steps == before + [s];
      var g, y := Final(before), Final(steps);
      InflightNotes(before);
      StepNumbers(g, s);
      forall q | q > y.seqNo
        ensures Notes(y, steps, q)
      {
        StepNotes(g, before, s, q);
      }
      if y.inflight {
        StepNotes(g, before, s, y.inflightSeq);
      }
    }
  }

  // ---- what a request is answered with ----

  /** What the answer to the request in flight is, by what came back and what happened meanwhile. */
  function Fate(steps: seq<Step>, r: InnerResult): Outcome {
    if Stopped(steps) then Cancelled else if r.failed then Errored else Provider
  }

  /** Every request that reached the provider is answered, unless the coordinator gave it up: with
      the provider's own response, its output and its stop reason untouched, when it came through
      and no cancel did; with an empty response when it failed; under the first id there is, of
      the provider's, the newest one streamed, and one made up. The answer is filed under that
      id, with its outcome and the model that served it. */
  lemma RepliesExactly(steps: seq<Step>, r: InnerResult)
    requires Run(steps) && Enabled(Final(steps), Return(r))
    ensures var g, q := Final(steps), Final(steps).inflightSeq;
            var (next, reply) := End(g, q, r);
            if r.ctxDone then reply == Superseded && next.records == g.records
            else
              && reply.Reply? && reply.outcome == Fate(steps, r)
              && next.records == g.records[reply.response.id :=
                   Record(q, Fate(steps, r),
                          if NewestServed(steps, q) != NO_ID then NewestServed(steps, q) else r.model)]
              && match Fate(steps, r)
                 case Provider =>
                   && reply.response.output == r.response.output && reply.response.stop == r.response.stop
                   && reply.response.id == (if r.response.id != NO_ID then r.response.id
                                            else if NewestCreated(steps, q) != NO_ID then NewestCreated(steps, q)
                                            else r.synthetic)
                 case Errored => reply.response == Response(r.synthetic, [], StopComplete)
                 case _ =>
                   && reply.response.stop == StopComplete
                   && reply.response.id == if NewestCreated(steps, q) != NO_ID then NewestCreated(steps, q)
                                           else r.synthetic
  {
    StopMarks(steps);
    InflightNotes(steps);
  }

  // ---- which requests never get there ----

  /** Step `i` began a request that reached the provider. */
  predicate Loud(steps: seq<Step>, i: nat) {
    i < |steps| && steps[i].Ask? && Final(steps[..i + 1]).providerCalls != Final(steps[..i]).providerCalls
  }

  /** Step `i` parked, and no request got through since. */
  predicate ParksStill(steps: seq<Step>, i: nat) {
    i < |steps| && steps[i].Park? && forall j: nat | i < j < |steps| :: !Loud(steps, j)
  }

  predicate Parks(s: Step, reason: Reason) {
    s.Park? && match reason
               case CallReason(id) => id in s.calls
               case InputReason(id) => id in s.inputs
               case HeartbeatReason(_) => false
  }

  ghost predicate Parked(steps: seq<Step>) {
    exists i: nat :: ParksStill(steps, i)
  }

  ghost predicate ParkedFor(steps: seq<Step>, reason: Reason) {
    exists i: nat :: ParksStill(steps, i) && Parks(steps[i], reason)
  }

  lemma LoudExtends(steps: seq<Step>, s: Step, i: nat)
    ensures i < |steps| ==> (Loud(steps + [s], i) <==> Loud(steps, i))
    ensures Loud(steps + [s], |steps|) <==>
            s.Ask? && Final(steps + [s]).providerCalls != Final(steps).providerCalls
  {
    var next := steps + [s];
    assert next[..|steps|] == steps && next[..|steps| + 1] == next;
    if i < |steps| {
      assert next[..i] == steps[..i] && next[..i + 1] == steps[..i + 1];
    }
  }

  lemma ParksExtend(steps: seq<Step>, s: Step, i: nat)
    ensures i < |steps| ==>
              (ParksStill(steps + [s], i) <==> ParksStill(steps, i) && !Loud(steps + [s], |steps|))
    ensures ParksStill(steps + [s], |steps|) <==> s.Park?
  {
    var next := steps + [s];
    forall j: nat | j < |steps|
      ensures Loud(next, j) <==> Loud(steps, j)
    {
      LoudExtends(steps, s, j);
    }
    assert next[|steps|] == s;
    assert i < |steps| ==> next[i] == steps[i];
  }

  lemma ParkedExtends(steps: seq<Step>, s: Step)
    ensures Parked(steps + [s]) <==> s.Park? || (Parked(steps) && !Loud(steps + [s], |steps|))
  {
    var next := steps + [s];
    ParksExtend(steps, s, |steps|);
    if Parked(steps) && !Loud(next, |steps|) {
      var i: nat :| ParksStill(steps, i);
      ParksExtend(steps, s, i);
    }
    if Parked(next) && !s.Park? {
      var i: nat :| ParksStill(next, i);
      ParksExtend(steps, s, i);
    }
  }

  lemma ParkedForExtends(steps: seq<Step>, s: Step, reason: Reason)
    ensures ParkedFor(steps + [s], reason) <==>
            Parks(s, reason) || (ParkedFor(steps, reason) && !Loud(steps + [s], |steps|))
  {
    var next := steps + [s];
    ParksExtend(steps, s, |steps|);
    assert next[|steps|] == s;
    if ParkedFor(steps, reason) && !Loud(next, |steps|) {
      var i: nat :| ParksStill(steps, i) && Parks(steps[i], reason);
      ParksExtend(steps, s, i);
      assert next[i] == steps[i];
    }
    if ParkedFor(next, reason) && !Parks(s, reason) {
      var i: nat :| ParksStill(next, i) && Parks(next[i], reason);
      ParksExtend(steps, s, i);
      assert next[i] == steps[i];
    }
  }

  lemma BeginParks(g: GateState, reasons: seq<Reason>, mutedId: ResponseId)
    requires !g.parked ==> g.parkedCalls == {} && g.parkedInputs == {}
    ensures var y := Begin(g, reasons, mutedId).0;
            if y.providerCalls == g.providerCalls
            then y.parked == g.parked && y.parkedCalls == g.parkedCalls && y.parkedInputs == g.parkedInputs
            else !y.parked && y.parkedCalls == {} && y.parkedInputs == {}
  {
  }

  lemma StepParks(g: GateState, s: Step, reason: Reason)
    requires !g.parked ==> g.parkedCalls == {} && g.parkedInputs == {}
    ensures var y := After(g, s);
            var loud := s.Ask? && y.providerCalls != g.providerCalls;
            && (y.parked <==> s.Park? || (g.parked && !loud))
            && (ParkedReason(y, reason) <==> Parks(s, reason) || (ParkedReason(g, reason) && !loud))
            && (!y.parked ==> y.parkedCalls == {} && y.parkedInputs == {})
  {
    match s
    case Ask(reasons, mutedId) => BeginParks(g, reasons, mutedId);
    case Return(r) => EndForgets(g, g.inflightSeq, r);
    case Stream(d) => assert Observe(g, d).parkedCalls == g.parkedCalls && Observe(g, d).parkedInputs == g.parkedInputs;
    case _ =>
  }

  /** What the gate knows as parked is what was parked since a request last got through. */
  lemma {:induction false} ParkedMarks(steps: seq<Step>, reason: Reason)
    requires Run(steps)
    ensures Final(steps).parked <==> Parked(steps)
    ensures ParkedReason(Final(steps), reason) <==> ParkedFor(steps, reason)
    ensures !Final(steps).parked ==> Final(steps).parkedCalls == {} && Final(steps).parkedInputs == {}
  {
    if steps != [] {
      var before, s := steps[..|steps| - 1], steps[|steps| - 1];
      assert steps == before + [s];
      ParkedMarks(before, reason);
      LoudExtends(before, s, |before|);
      ParkedExtends(before, s);
      ParkedForExtends(before, s, reason);
      StepParks(Final(before), s, reason);
    }
  }

  /** Muting, exactly: a request is kept from the provider if and only if something was parked since
      a request last got through, and everything this one would answer was. */
  lemma MutedExactly(steps: seq<Step>, reasons: seq<Reason>, mutedId: ResponseId)
    requires Run(steps) && Enabled(Final(steps), Ask(reasons, mutedId))
    ensures var (next, admission) := Begin(Final(steps), reasons, mutedId);
            var muted := Parked(steps) && forall i | 0 <= i < |reasons| :: ParkedFor(steps, reasons[i]);
            && (admission == Answered(Response(mutedId, [], StopComplete)) <==> muted)
            && next.providerCalls == Final(steps).providerCalls + (if muted then 0 else 1)
            && next.inflight == !muted
            && (muted ==> next.records == Final(steps).records[mutedId := Record(next.seqNo, Muted, 0)])
  {
    ParkedMarks(steps, InputReason(0));
    forall i | 0 <= i < |reasons|
      ensures ParkedReason(Final(steps), reasons[i]) <==> ParkedFor(steps, reasons[i])
    {
      ParkedMarks(steps, reasons[i]);
    }
  }
}
