/** What the client sees of each tool call, over whole runs. */
module ToolCalls {
  import opened Harness
  import opened Mirrors
  import opened Ops
  import opened Projection
  import opened SessionSteps
  import opened SessionRuns
  import opened CancelledWork
  import opened Answers

  datatype Phase = Pending | InProgress | Terminal

  function PhaseOf(u: Update): Phase {
    if u.CallStart? then Pending else if u.CallProgress? then InProgress else Terminal
  }

  /** The updates sent for call `c`, in order. */
  function Story(sent: seq<Update>, c: CallId): seq<Phase> {
    if sent == [] then []
    else Story(sent[..|sent| - 1], c) +
         if sent[|sent| - 1].id == c then [PhaseOf(sent[|sent| - 1])] else []
  }

  /** One pending tool_call, then at most one in_progress, then at most one final update. */
  predicate Proper(story: seq<Phase>) {
    story == [] || story == [Pending] || story == [Pending, InProgress] || story == [Pending, Terminal] ||
    story == [Pending, InProgress, Terminal]
  }

  /** The runtime's marks tell the story of every call exactly. */
  predicate Told(v: View, c: CallId) {
    && Story(v.sent, c) == (if c in v.announced then [Pending] else []) +
                           (if c in v.started then [InProgress] else []) +
                           (if c in v.reported then [Terminal] else [])
    && (c in v.started || c in v.reported ==> c in v.announced)
  }

  ghost predicate AllTold(v: View) {
    forall c :: Told(v, c)
  }

  lemma StoryAppend(sent: seq<Update>, u: Update, c: CallId)
    ensures Story(sent + [u], c) == Story(sent, c) + if u.id == c then [PhaseOf(u)] else []
  {
    assert (sent + [u])[..|sent|] == sent;
  }

  lemma AnnounceTold(v: View, calls: set<CallId>, id: CallId)
    requires AllTold(v)
    ensures AllTold(v.Announce(calls, id))
    ensures id in calls ==> id in v.Announce(calls, id).announced
  {
    forall c
      ensures Told(v.Announce(calls, id), c)
    {
      StoryAppend(v.sent, CallStart(id), c);
      assert Told(v, c);
    }
  }

  /** A final update for a known call closes its story, unless it is closed. */
  lemma ReportTold(v: View, calls: set<CallId>, u: Update)
    requires AllTold(v) && u.Final() && u.id in calls
    ensures AllTold(v.Report(calls, u)) && u.id in v.Report(calls, u).reported
    ensures v.Report(calls, u).reported == v.reported + {u.id}
  {
    if u.id !in v.reported {
      var v1 := v.Announce(calls, u.id);
      AnnounceTold(v, calls, u.id);
      var v2 := v.Report(calls, u);
      assert v2 == v1.(reported := v.reported + {u.id}, sent := v1.sent + [u]);
      forall c
        ensures Told(v2, c)
      {
        StoryAppend(v1.sent, u, c);
        assert Told(v1, c);
      }
    }
  }

  lemma StartTold(v: View, calls: set<CallId>, id: CallId)
    requires AllTold(v) && (id != NO_ID ==> id in calls)
    ensures AllTold(v.Start(calls, id)) && v.Start(calls, id).reported == v.reported
  {
    if id != NO_ID && id !in v.started && id !in v.reported {
      var v1 := v.Announce(calls, id);
      AnnounceTold(v, calls, id);
      var v2 := v.Start(calls, id);
      assert v2 == v1.(started := v.started + {id}, sent := v1.sent + [CallProgress(id)]);
      forall c
        ensures Told(v2, c)
      {
        StoryAppend(v1.sent, CallProgress(id), c);
        assert Told(v1, c);
      }
    }
  }

  lemma {:induction false} AnnounceAllTold(v: View, calls: set<CallId>, output: seq<Output>)
    requires AllTold(v)
    ensures AllTold(AnnounceAll(v, calls, output)) && AnnounceAll(v, calls, output).reported == v.reported
  {
    if output != [] {
      var v1 := AnnounceAll(v, calls, output[..|output| - 1]);
      AnnounceAllTold(v, calls, output[..|output| - 1]);
      if output[|output| - 1].ToolCall? {
        AnnounceTold(v1, calls, output[|output| - 1].id);
      }
    }
  }

  lemma {:induction false} ReportAllTold(v: View, calls: set<CallId>, ids: seq<CallId>, byClient: bool)
    requires AllTold(v) && forall i | 0 <= i < |ids| :: ids[i] in calls
    ensures AllTold(v.ReportAll(calls, ids, byClient))
    ensures v.ReportAll(calls, ids, byClient).reported == v.reported + set i | 0 <= i < |ids| :: ids[i]
  {
    if ids != [] {
      var last := |ids| - 1;
      ReportAllTold(v, calls, ids[..last], byClient);
      ReportTold(v.ReportAll(calls, ids[..last], byClient), calls, CallFailed(ids[last], byClient));
      assert forall i | 0 <= i < last :: ids[..last][i] == ids[i];
      assert (set i | 0 <= i < |ids| :: ids[i]) == (set i | 0 <= i < last :: ids[..last][i]) + {ids[last]};
    }
  }

  // ---- every call in play is known ----

  /** Statuses in the queue, and calls waited for, are about calls some response made. */
  ghost predicate InPlay(s: Session) {
    && Filed(s)
    && s.sync.outstanding.Keys <= s.index.calls
    && Queued(s.events, s.index.calls)
    && Waited(s.turns, s.index.calls)
  }

  predicate Queued(events: seq<Event>, calls: set<CallId>) {
    forall i | 0 <= i < |events| && events[i].EvItem? && events[i].item.CallStatus? ::
      events[i].item.status.callId in calls
  }

  predicate Waited(ts: Turns, calls: set<CallId>) {
    ts.Now().Some? ==> ts.Now().value.waitCalls <= calls
  }

  lemma AppendInPlay(s: Session, item: Item)
    requires InPlay(s) && Sensible(s.index, item)
    ensures InPlay(Observed(s, item))
  {
    AppendFiled(s, item);
  }

  lemma AbortWaited(s: Session)
    requires Waited(s.turns, s.index.calls) && s.sync.outstanding.Keys <= s.index.calls
    ensures Waited(AbortMarks(s).turns, s.index.calls)
  {
  }

  lemma HandledWaited(s: Session, ev: Event, calls: seq<CallId>)
    requires Waited(s.turns, s.index.calls) && s.sync.outstanding.Keys <= s.index.calls
    ensures Waited(Handled(s, ev, calls).turns, s.index.calls)
  {
    if ev.EvModelError? {
      AbortWaited(Noted(s, ev.code));
    }
  }

  lemma FinishWaited(ts: Turns, k: nat, r: TurnResult, calls: set<CallId>)
    requires Waited(ts, calls)
    ensures Waited(ts.Finish(k, r), calls)
  {
  }

  lemma EvaluatedWaited(s: Session)
    requires Waited(s.turns, s.index.calls)
    ensures Waited(Evaluated(s).0.turns, s.index.calls)
  {
    match Judge(s)
    case Wait =>
    case SubmitSteers =>
    case AnswerCancelled =>
      FinishWaited(s.turns, s.turns.current.value,
                   TurnResult(Some(StopCancelled), s.turns.Now().value.err, false), s.index.calls);
    case AnswerDone =>
      var t := s.turns.Now().value;
      FinishWaited(s.turns, s.turns.current.value,
                   TurnResult(if t.stop.Some? then t.stop else Some(EndTurn), t.err, false), s.index.calls);
  }

  lemma SubmitWaited(m: Machine, id: InputId, ok: bool)
    requires Waited(m.s.turns, m.s.index.calls)
    ensures Waited(SubmittedPrompt(m, id, ok).s.turns, m.s.index.calls)
  {
    if id in m.transit && m.transit[id].FromPrompt? {
      FinishWaited(m.s.turns, m.transit[id].turn, TurnResult(None, Some(SubmitFailed), false), m.s.index.calls);
    }
  }

  lemma ClientWaited(m: Machine, step: Step)
    requires step.Prompt? || step.Mark? || step.Steer?
    requires Waited(m.s.turns, m.s.index.calls)
    ensures Waited(After(m, step).s.turns, m.s.index.calls)
  {
  }

  lemma StepWaited(m: Machine, step: Step)
    requires Waited(m.s.turns, m.s.index.calls) && m.s.sync.outstanding.Keys <= m.s.index.calls
    requires Enabled(m, step) && !Appends(step)
    ensures Waited(After(m, step).s.turns, m.s.index.calls)
  {
    match step
    case Abort(_) => AbortWaited(m.s);
    case Pop(_, calls) => HandledWaited(m.s.(events := m.s.events[1..]), m.s.events[0], calls);
    case Evaluate => EvaluatedWaited(m.s);
    case SubmitPrompt(id, ok) => SubmitWaited(m, id, ok);
    case _ => if step.Prompt? || step.Mark? || step.Steer? {
      ClientWaited(m, step);
    } else {
      TurnsKept(m, step);
    }
  }

  lemma StepInPlay(m: Machine, step: Step)
    requires InPlay(m.s) && Enabled(m, step)
    ensures InPlay(After(m, step).s)
  {
    if step.Persist? {
      AppendInPlay(m.s, Input(m.inbox[0], External));
    } else if step.AppendItem? {
      AppendInPlay(m.s, step.item);
    } else if step.StartTurn? {
      AppendInPlay(m.s, Turn(step.turnId));
    } else {
      StepFiled(m, step);
      RecordsKept(m, step);
      StepWaited(m, step);
    }
  }

  // ---- every story stays proper ----

  lemma HandledTold(s: Session, ev: Event, ids: seq<OpId>, calls: seq<CallId>)
    requires AllTold(s.view) && InPlay(s) && Orders(s, ev, ids, calls)
    requires ev.EvItem? && ev.item.CallStatus? ==> ev.item.status.callId in s.index.calls
    ensures AllTold(Handled(s, ev, calls).view)
    ensures s.view.reported <= Handled(s, ev, calls).view.reported
  {
    var known := s.index.calls;
    match ev
    case EvItem(item) =>
      if item.ModelResponse? {
        AnnounceAllTold(s.view, known, item.response.output);
      } else if item.CallStatus? {
        ReportTold(s.view, known, CallResult(item.status.callId, ResultFailed(item.status)));
      }
    case EvOp(op) => StartTold(s.view, known, s.index.CallOf(op.id));
    case EvPermission(op) => AnnounceTold(s.view, known, s.index.CallOf(op.id));
    case EvCancelFlush(k) =>
      if s.turns.current == Some(k) && s.turns.Now().Some? {
        assert forall i | 0 <= i < |calls| :: calls[i] in calls;
        ReportAllTold(s.view, known, calls, s.turns.Now().value.clientCancelled);
      }
    case _ =>
  }

  lemma ClientShowsNothing(m: Machine, step: Step)
    requires step.Prompt? || step.SubmitPrompt? || step.Mark? || step.Steer? || step.Evaluate?
    ensures After(m, step).s.view == m.s.view
  {
  }

  lemma OthersShowNothing(m: Machine, step: Step)
    requires !step.Pop?
    requires !step.Prompt? && !step.SubmitPrompt? && !step.Mark? && !step.Steer? && !step.Evaluate?
    ensures After(m, step).s.view == m.s.view
  {
  }

  lemma OnlyPopShows(m: Machine, step: Step)
    requires !step.Pop?
    ensures After(m, step).s.view == m.s.view
  {
    if step.Prompt? || step.SubmitPrompt? || step.Mark? || step.Steer? || step.Evaluate? {
      ClientShowsNothing(m, step);
    } else {
      OthersShowNothing(m, step);
    }
  }

  lemma StepTold(m: Machine, step: Step)
    requires AllTold(m.s.view) && InPlay(m.s) && Enabled(m, step)
    ensures AllTold(After(m, step).s.view) && m.s.view.reported <= After(m, step).s.view.reported
  {
    if step.Pop? {
      var s := m.s.(events := m.s.events[1..]);
      assert InPlay(s) by {
        assert forall i | 0 <= i < |s.events| :: s.events[i] == m.s.events[i + 1];
      }
      HandledTold(s, m.s.events[0], step.ids, step.calls);
    } else {
      OnlyPopShows(m, step);
    }
  }

  lemma {:induction false} RunTold(m: Machine, steps: seq<Step>)
    requires AllTold(m.s.view) && InPlay(m.s) && Run(m, steps)
    ensures AllTold(Final(m, steps).s.view) && InPlay(Final(m, steps).s)
    decreases |steps|
  {
    if steps != [] {
      StepTold(m, steps[0]);
      StepInPlay(m, steps[0]);
      RunTold(After(m, steps[0]), steps[1..]);
    }
  }

  lemma ReachedTold(a: Machine, b: Machine)
    requires AllTold(a.s.view) && InPlay(a.s) && Reaches(a, b)
    ensures AllTold(b.s.view) && InPlay(b.s)
  {
    var steps :| Run(a, steps) && b == Final(a, steps);
    RunTold(a, steps);
  }

  lemma OpenedInPlay(log: seq<Item>)
    requires SensibleLog(log)
    ensures InPlay(Opened(log).s) && AllTold(Opened(log).s.view)
  {
    OpenedFiled(log);
    OpenedCalls(log);
  }

  lemma {:induction false} OpenedCalls(log: seq<Item>)
    requires SensibleLog(log)
    ensures Fold(log).outstanding.Keys <= IndexAll(NO_INDEX, log).calls
  {
    if log != [] {
      OpenedCalls(log[..|log| - 1]);
    }
  }

  /** Tool-call lifecycle: in every run of a session from any sensible log, without a replay,
      the client sees for each call one pending tool_call, then at most one in_progress, then at
      most one final update, and nothing more: through statuses, operation snapshots, permission
      requests and the flush after a cancel alike. */
  lemma EveryCallHasAProperStory(log: seq<Item>, m: Machine, c: CallId)
    requires SensibleLog(log) && Reaches(Opened(log), m)
    ensures Proper(Story(m.s.view.sent, c))
  {
    OpenedInPlay(log);
    ReachedTold(Opened(log), m);
    var v := m.s.view;
    assert Told(v, c);
    assert Story(v.sent, c) == if c !in v.announced then []
                               else if c in v.started
                               then (if c in v.reported then [Pending, InProgress, Terminal] else [Pending, InProgress])
                               else if c in v.reported then [Pending, Terminal] else [Pending];
  }
}
