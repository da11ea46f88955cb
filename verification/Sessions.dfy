/** internal/acpagent open and CloseSession with the kernel locks of internal/runtime/state.go:
    who may open a session, and when its log is created. */
module Sessions {
  import opened Harness

  type SessionId = nat
  type Process = nat
  type Handle = nat      // one open() call, and the lock file and runtime it ends up with

  /** LoadExisting is the mode of session/load and session/resume; OpenOrCreate that of a gc
      launch; Unbound that of session/new with a fresh id. */
  datatype Mode = Unbound | OpenOrCreate | BoundCreate | BoundResume | LoadExisting

  datatype Failure = AlreadyExists | Busy | UnknownSession | CreateFailed | OpenFailed

  /** The switch on the mode after the existence check. */
  function Refusal(mode: Mode, present: bool): Option<Failure> {
    if mode == BoundCreate && present then Some(AlreadyExists)
    else if (mode == BoundResume || mode == LoadExisting) && !present then Some(UnknownSession)
    else None
  }

  // ---- one process alone ----

  /** What survives the processes: kernel locks and logs. A log is its number of items. */
  class Disk {
    var locks: map<SessionId, Handle>
    var logs: map<SessionId, nat>

    constructor ()
      ensures locks == map[] && logs == map[]
    {
      locks, logs := map[], map[];
    }

    /** flock(LOCK_EX|LOCK_NB) on the session's lock file. */
    method AcquireLock(id: SessionId, handle: Handle) returns (ok: bool)
      modifies `locks
      ensures ok <==> id !in old(locks)
      ensures locks == if ok then old(locks)[id := handle] else old(locks)
    {
      if id in locks {
        return false;
      }
      locks := locks[id := handle];
      return true;
    }

    /** Release: safe to call more than once. */
    method Release(id: SessionId, handle: Handle)
      modifies `locks
      ensures locks == if id in old(locks) && old(locks)[id] == handle then old(locks) - {id} else old(locks)
    {
      if id in locks && locks[id] == handle {
        locks := locks - {id};
      }
    }

    /** Store.Create publishes by rename: whatever log was there is gone. */
    method Create(id: SessionId)
      modifies `logs
      ensures logs == old(logs)[id := 0]
    {
      logs := logs[id := 0];
    }
  }

  class Agent {
    const disk: Disk
    var sessions: map<SessionId, Handle>

    constructor (disk: Disk)
      ensures this.disk == disk && sessions == map[]
    {
      this.disk := disk;
      sessions := map[];
    }

    /** open, undisturbed: `createOk` and `openOk` say whether the library's own steps succeed.
        It succeeds exactly when the lock is free, the mode suits the presence of a log, and the
        library's steps succeed; otherwise the answer tells which of these failed. Success means
        this process holds the lock under the handle it registered; anything else leaves the lock
        as it was. No existing log is ever replaced. */
    method Open(id: SessionId, mode: Mode, handle: Handle, createOk: bool, openOk: bool)
      returns (r: Option<Failure>, runtime: Handle)
      modifies this, disk
      ensures id in old(sessions) ==>
                && r == (if mode == BoundCreate then Some(AlreadyExists) else None)
                && runtime == old(sessions)[id]
                && sessions == old(sessions) && disk.locks == old(disk.locks) && disk.logs == old(disk.logs)
      ensures id !in old(sessions) ==>
                (r.None? <==>
                 && id !in old(disk.locks) && openOk
                 && (id in old(disk.logs) ==> mode != BoundCreate)
                 && (id !in old(disk.logs) ==> mode != BoundResume && mode != LoadExisting && createOk))
      ensures id !in old(sessions) ==> (r == Some(Busy) <==> id in old(disk.locks))
      ensures id !in old(sessions) && id !in old(disk.locks) ==>
                && (r == Some(AlreadyExists) <==> id in old(disk.logs) && mode == BoundCreate)
                && (r == Some(UnknownSession) <==>
                    id !in old(disk.logs) && (mode == BoundResume || mode == LoadExisting))
                && (r == Some(CreateFailed) <==>
                    id !in old(disk.logs) && mode != BoundResume && mode != LoadExisting && !createOk)
      ensures id !in old(sessions) && r.Some? ==>
                sessions == old(sessions) && disk.locks == old(disk.locks)
      ensures id !in old(sessions) && r.None? ==>
                && sessions == old(sessions)[id := handle] && runtime == handle
                && disk.locks == old(disk.locks)[id := handle]
      ensures disk.logs == if id !in old(sessions) && id !in old(disk.locks) && id !in old(disk.logs) && createOk &&
                              mode != BoundResume && mode != LoadExisting
                           then old(disk.logs)[id := 0] else old(disk.logs)
    {
      runtime := handle;
      if id in sessions {
        runtime := sessions[id];
        r := if mode == BoundCreate then Some(AlreadyExists) else None;
        return;
      }
      var ok := disk.AcquireLock(id, handle);
      if !ok {
        return Some(Busy), handle;
      }
      var present := id in disk.logs;
      r := Refusal(mode, present);
      if r.None? && !present {
        if createOk {
          disk.Create(id);
        } else {
          r := Some(CreateFailed);
        }
      }
      if r.None? && !openOk {
        r := Some(OpenFailed);
      }
      if r.Some? {
        disk.Release(id, handle);
        return;
      }
      sessions := sessions[id := handle];
    }

    /** CloseSession: forget the runtime, then let it release its lock. */
    method CloseSession(id: SessionId)
      modifies this, disk
      ensures sessions == old(sessions) - {id} && disk.logs == old(disk.logs)
      ensures disk.locks ==
              if id in old(sessions) && id in old(disk.locks) && old(disk.locks)[id] == old(sessions)[id]
              then old(disk.locks) - {id} else old(disk.locks)
    {
      if id in sessions {
        var handle := sessions[id];
        sessions := sessions - {id};
        disk.Release(id, handle);
      }
    }
  }

  // ---- any number of processes, any interleaving ----

  /** How far one open() call has come, and what became of its runtime. */
  datatype Stage = Looked | Locked | MayCreate | Opened | Live | Closing | Done

  datatype Call = Call(process: Process, id: SessionId, mode: Mode, stage: Stage)

  datatype World = World(
    calls: map<Handle, Call>,
    sessions: map<(Process, SessionId), Handle>,
    locks: map<SessionId, Handle>,
    logs: map<SessionId, nat>)

  const BOOT := World(map[], map[], map[], map[])

  datatype Step =
    | Look(h: Handle, process: Process, id: SessionId, mode: Mode)   // the map lookup under a.mu
    | Acquire(h: Handle)
    | CheckExists(h: Handle)
    | Create(h: Handle, ok: bool)
    | Abandon(h: Handle)                                             // a later step of open fails
    | Register(h: Handle)
    | Append(h: Handle)                                              // a live runtime writes its log
    | Close(process: Process, id: SessionId)                         // CloseSession's map deletion
    | Unlock(h: Handle)                                              // the closed runtime releases
    | Crash(process: Process)                                        // the kernel drops its locks

  predicate At(w: World, h: Handle, stage: Stage) {
    h in w.calls && w.calls[h].stage == stage
  }

  predicate Enabled(w: World, s: Step) {
    match s
    case Look(h, _, _, _) => h !in w.calls
    case Acquire(h) => At(w, h, Looked)
    case CheckExists(h) => At(w, h, Locked)
    case Create(h, _) => At(w, h, MayCreate)
    case Abandon(h) => At(w, h, Opened)
    case Register(h) => At(w, h, Opened)
    case Append(h) => (At(w, h, Live) || At(w, h, Closing)) && w.calls[h].id in w.logs
    case Close(_, _) => true
    case Unlock(h) => At(w, h, Closing)
    case Crash(_) => true
  }

  function To(w: World, h: Handle, stage: Stage): World {
    if h in w.calls then w.(calls := w.calls[h := w.calls[h].(stage := stage)]) else w
  }

  /** The call gives up: its lock goes, and it is over. */
  function Drop(w: World, h: Handle): World {
    if h in w.calls then To(w.(locks := w.locks - {w.calls[h].id}), h, Done) else w
  }

  function After(w: World, s: Step): World
    requires Enabled(w, s)
  {
    match s
    case Look(h, process, id, mode) =>
      w.(calls := w.calls[h := Call(process, id, mode, if (process, id) in w.sessions then Done else Looked)])
    case Acquire(h) =>
      var id := w.calls[h].id;
      if id in w.locks then To(w, h, Done) else To(w.(locks := w.locks[id := h]), h, Locked)
    case CheckExists(h) =>
      var present := w.calls[h].id in w.logs;
      if Refusal(w.calls[h].mode, present).Some? then Drop(w, h)
      else To(w, h, if present then Opened else MayCreate)
    case Create(h, ok) =>
      if ok then To(w.(logs := w.logs[w.calls[h].id := 0]), h, Opened) else Drop(w, h)
    case Abandon(h) => Drop(w, h)
    case Register(h) =>
      To(w.(sessions := w.sessions[(w.calls[h].process, w.calls[h].id) := h]), h, Live)
    case Append(h) => w.(logs := w.logs[w.calls[h].id := w.logs[w.calls[h].id] + 1])
    case Close(process, id) =>
      if (process, id) !in w.sessions then w
      else To(w.(sessions := w.sessions - {(process, id)}), w.sessions[(process, id)], Closing)
    case Unlock(h) => Drop(w, h)
    case Crash(process) =>
      World(map h | h in w.calls :: if w.calls[h].process == process then w.calls[h].(stage := Done) else w.calls[h],
            map k | k in w.sessions && k.0 != process :: w.sessions[k],
            map id | id in w.locks && !(w.locks[id] in w.calls && w.calls[w.locks[id]].process == process)
                   :: w.locks[id],
            w.logs)
  }

  predicate Holding(stage: Stage) {
    stage.Locked? || stage.MayCreate? || stage.Opened? || stage.Live? || stage.Closing?
  }

  /** Locks and calls agree; a call may create only where there is no log; a registered runtime
      is live; a live runtime has its log. */
  ghost predicate Consistent(w: World) {
    && (forall h | h in w.calls && Holding(w.calls[h].stage) ::
          w.calls[h].id in w.locks && w.locks[w.calls[h].id] == h)
    && (forall id | id in w.locks ::
          w.locks[id] in w.calls && w.calls[w.locks[id]].id == id && Holding(w.calls[w.locks[id]].stage))
    && (forall h | At(w, h, MayCreate) :: w.calls[h].id !in w.logs)
    && (forall k | k in w.sessions ::
          At(w, w.sessions[k], Live) && w.calls[w.sessions[k]].process == k.0 && w.calls[w.sessions[k]].id == k.1)
  }

  predicate Run(w: World, steps: seq<Step>)
    decreases |steps|
  {
    steps == [] || (Enabled(w, steps[0]) && Run(After(w, steps[0]), steps[1..]))
  }

  function Final(w: World, steps: seq<Step>): World
    requires Run(w, steps)
    decreases |steps|
  {
    if steps == [] then w else Final(After(w, steps[0]), steps[1..])
  }

  lemma DropKeepsConsistent(w: World, h: Handle)
    requires Consistent(w) && h in w.calls && Holding(w.calls[h].stage) && !w.calls[h].stage.Live?
    ensures Consistent(Drop(w, h))
  {
  }

  /** A holder that is not registered may move on, to MayCreate only where there is no log. */
  lemma AdvanceKeepsConsistent(w: World, h: Handle, stage: Stage)
    requires Consistent(w) && h in w.calls && Holding(w.calls[h].stage) && !w.calls[h].stage.Live?
    requires Holding(stage) && (stage.MayCreate? ==> w.calls[h].id !in w.logs)
    ensures Consistent(To(w, h, stage))
  {
  }

  lemma RegisterKeepsConsistent(w: World, h: Handle)
    requires Consistent(w) && At(w, h, Opened)
    ensures Consistent(After(w, Register(h)))
  {
    var k := (w.calls[h].process, w.calls[h].id);
    assert k in w.sessions ==> w.locks[k.1] == h;
  }

  lemma CreateKeepsConsistent(w: World, h: Handle)
    requires Consistent(w) && At(w, h, MayCreate)
    ensures Consistent(After(w, Create(h, true)))
  {
    AdvanceKeepsConsistent(w, h, Opened);
  }

  lemma CrashKeepsConsistent(w: World, process: Process)
    requires Consistent(w)
    ensures Consistent(After(w, Crash(process)))
  {
  }

  lemma OpeningKeepsConsistent(w: World, s: Step)
    requires Consistent(w) && Enabled(w, s) && (s.Look? || s.Acquire?)
    ensures Consistent(After(w, s))
  {
  }

  lemma CloseKeepsConsistent(w: World, s: Step)
    requires Consistent(w) && Enabled(w, s) && (s.Close? || s.Append?)
    ensures Consistent(After(w, s))
  {
  }

  lemma StepKeepsConsistent(w: World, s: Step)
    requires Consistent(w) && Enabled(w, s)
    ensures Consistent(After(w, s))
  {
    match s
    case CheckExists(h) =>
      var present := w.calls[h].id in w.logs;
      if Refusal(w.calls[h].mode, present).Some? {
        DropKeepsConsistent(w, h);
      } else {
        AdvanceKeepsConsistent(w, h, if present then Opened else MayCreate);
      }
    case Create(h, ok) =>
      if ok {
        CreateKeepsConsistent(w, h);
      } else {
        DropKeepsConsistent(w, h);
      }
    case Abandon(h) => DropKeepsConsistent(w, h);
    case Unlock(h) => DropKeepsConsistent(w, h);
    case Register(h) => RegisterKeepsConsistent(w, h);
    case Crash(process) => CrashKeepsConsistent(w, process);
    case Look(_, _, _, _) => OpeningKeepsConsistent(w, s);
    case Acquire(_) => OpeningKeepsConsistent(w, s);
    case Close(_, _) => CloseKeepsConsistent(w, s);
    case Append(_) => CloseKeepsConsistent(w, s);
  }

  lemma {:induction false} RunKeepsConsistent(w: World, steps: seq<Step>)
    requires Consistent(w) && Run(w, steps)
    ensures Consistent(Final(w, steps))
    decreases |steps|
  {
    if steps != [] {
      StepKeepsConsistent(w, steps[0]);
      RunKeepsConsistent(After(w, steps[0]), steps[1..]);
    }
  }

  lemma Reachable(steps: seq<Step>)
    requires Run(BOOT, steps)
    ensures Consistent(Final(BOOT, steps))
  {
    RunKeepsConsistent(BOOT, steps);
  }

  /** Session exclusivity: however processes open, close and crash, one call at most is past the
      lock of a session, it is the holder of the kernel lock, and only it can write the log. */
  lemma OneHolder(steps: seq<Step>, a: Handle, b: Handle)
    requires Run(BOOT, steps)
    requires var w := Final(BOOT, steps);
             a in w.calls && b in w.calls && w.calls[a].id == w.calls[b].id &&
             Holding(w.calls[a].stage) && Holding(w.calls[b].stage)
    ensures var w := Final(BOOT, steps);
            a == b && w.calls[a].id in w.locks && w.locks[w.calls[a].id] == a
  {
    Reachable(steps);
  }

  lemma OneWriter(steps: seq<Step>, a: Handle, b: Handle)
    requires Run(BOOT, steps)
    requires Enabled(Final(BOOT, steps), Append(a)) && Enabled(Final(BOOT, steps), Append(b))
    requires Final(BOOT, steps).calls[a].id == Final(BOOT, steps).calls[b].id
    ensures a == b
  {
    OneHolder(steps, a, b);
  }

  /** A process never registers a second runtime over a first: the map entry is free whenever a
      call is ready to register. */
  lemma RegisterIsFirst(steps: seq<Step>, h: Handle)
    requires Run(BOOT, steps) && Enabled(Final(BOOT, steps), Register(h))
    ensures var w := Final(BOOT, steps); (w.calls[h].process, w.calls[h].id) !in w.sessions
  {
    Reachable(steps);
    var w := Final(BOOT, steps);
    var k := (w.calls[h].process, w.calls[h].id);
    if k in w.sessions {
      OneHolder(steps, h, w.sessions[k]);
    }
  }

  /** Create never runs on an existing log, so no step of any run replaces or shortens one. */
  lemma LogsOnlyGrow(steps: seq<Step>, s: Step, id: SessionId)
    requires Run(BOOT, steps) && Enabled(Final(BOOT, steps), s) && id in Final(BOOT, steps).logs
    ensures var w := Final(BOOT, steps);
            id in After(w, s).logs && w.logs[id] <= After(w, s).logs[id] <= w.logs[id] + 1
  {
    Reachable(steps);
  }

  lemma RunFirst(w: World, s: Step, rest: seq<Step>)
    requires Enabled(w, s) && Run(After(w, s), rest)
    ensures Run(w, [s] + rest) && Final(w, [s] + rest) == Final(After(w, s), rest)
  {
    assert ([s] + rest)[1..] == rest;
  }

  /** The steps of a call that nothing refuses and nobody disturbs. */
  function Opening(h: Handle, process: Process, id: SessionId, mode: Mode, present: bool): seq<Step> {
    [Look(h, process, id, mode)] + ([Acquire(h)] + ([CheckExists(h)] + Registering(h, present)))
  }

  function Registering(h: Handle, present: bool): seq<Step> {
    if present then [Register(h)] + [] else [Create(h, true)] + ([Register(h)] + [])
  }

  predicate Suits(mode: Mode, present: bool) {
    if present then mode != BoundCreate else mode != BoundResume && mode != LoadExisting
  }

  lemma Registers(w: World, h: Handle)
    requires At(w, h, Opened)
    ensures Run(w, [Register(h)] + []) && Final(w, [Register(h)] + []) == After(w, Register(h))
  {
    RunFirst(w, Register(h), []);
  }

  lemma LockedOpens(w: World, h: Handle)
    requires At(w, h, Locked) && Suits(w.calls[h].mode, w.calls[h].id in w.logs)
    ensures var id := w.calls[h].id;
            var steps := [CheckExists(h)] + Registering(h, id in w.logs);
            && Run(w, steps)
            && Final(w, steps) == w.(calls := w.calls[h := w.calls[h].(stage := Live)],
                                     sessions := w.sessions[(w.calls[h].process, id) := h],
                                     logs := if id in w.logs then w.logs else w.logs[id := 0])
  {
    var w1 := After(w, CheckExists(h));
    if w.calls[h].id in w.logs {
      Registers(w1, h);
    } else {
      Registers(After(w1, Create(h, true)), h);
      RunFirst(w1, Create(h, true), [Register(h)] + []);
    }
    RunFirst(w, CheckExists(h), Registering(h, w.calls[h].id in w.logs));
  }

  /** A free session can be opened: from every state of every run, a call of a process that does
      not have the session, for a session nobody holds and in a mode that suits the presence of
      its log, comes to a live runtime that holds the lock, over the log that was there, or a new
      one. */
  lemma FreeSessionOpens(before: seq<Step>, h: Handle, process: Process, id: SessionId, mode: Mode)
    requires Run(BOOT, before)
    requires var w := Final(BOOT, before);
             h !in w.calls && (process, id) !in w.sessions && id !in w.locks && Suits(mode, id in w.logs)
    ensures var w := Final(BOOT, before);
            var steps := Opening(h, process, id, mode, id in w.logs);
            && Run(w, steps)
            && Final(w, steps) == World(w.calls[h := Call(process, id, mode, Live)], w.sessions[(process, id) := h],
                                        w.locks[id := h], if id in w.logs then w.logs else w.logs[id := 0])
  {
    UndisturbedOpen(Final(BOOT, before), h, process, id, mode);
  }

  lemma UndisturbedOpen(w: World, h: Handle, process: Process, id: SessionId, mode: Mode)
    requires h !in w.calls && (process, id) !in w.sessions && id !in w.locks && Suits(mode, id in w.logs)
    ensures var steps := Opening(h, process, id, mode, id in w.logs);
            && Run(w, steps)
            && Final(w, steps) == World(w.calls[h := Call(process, id, mode, Live)], w.sessions[(process, id) := h],
                                        w.locks[id := h], if id in w.logs then w.logs else w.logs[id := 0])
  {
    var w1 := After(w, Look(h, process, id, mode));
    var w2 := After(w1, Acquire(h));
    assert w2 == w.(calls := w.calls[h := Call(process, id, mode, Locked)], locks := w.locks[id := h]);
    LockedOpens(w2, h);
    var last := [CheckExists(h)] + Registering(h, id in w.logs);
    RunFirst(w1, Acquire(h), last);
    RunFirst(w, Look(h, process, id, mode), [Acquire(h)] + last);
  }

  // ---- without the lock ----

  /** The same protocol, but that taking the lock always succeeds and takes nothing. */
  function Unlocked(w: World, s: Step): World
    requires Enabled(w, s)
  {
    match s
    case Acquire(h) => To(w, h, Locked)
    case _ => After(w, s)
  }

  predicate UnlockedRun(w: World, steps: seq<Step>)
    decreases |steps|
  {
    steps == [] || (Enabled(w, steps[0]) && UnlockedRun(Unlocked(w, steps[0]), steps[1..]))
  }

  function UnlockedFinal(w: World, steps: seq<Step>): World
    requires UnlockedRun(w, steps)
    decreases |steps|
  {
    if steps == [] then w else UnlockedFinal(Unlocked(w, steps[0]), steps[1..])
  }

  lemma UnlockedFirst(w: World, s: Step, rest: seq<Step>)
    requires Enabled(w, s) && UnlockedRun(Unlocked(w, s), rest)
    ensures UnlockedRun(w, [s] + rest) && UnlockedFinal(w, [s] + rest) == UnlockedFinal(Unlocked(w, s), rest)
  {
    assert ([s] + rest)[1..] == rest;
  }

  lemma UnlockedJoin(w: World, a: seq<Step>, b: seq<Step>)
    requires UnlockedRun(w, a) && UnlockedRun(UnlockedFinal(w, a), b)
    ensures UnlockedRun(w, a + b) && UnlockedFinal(w, a + b) == UnlockedFinal(UnlockedFinal(w, a), b)
    decreases |a|
  {
    if a == [] {
      assert a + b == b;
    } else {
      assert (a + b)[1..] == a[1..] + b;
      UnlockedJoin(Unlocked(w, a[0]), a[1..], b);
    }
  }

  /** A call by itself, up to the point where it will create the log. */
  lemma ComesToCreate(w: World, h: Handle, process: Process, id: SessionId)
    requires h !in w.calls && (process, id) !in w.sessions && id !in w.logs
    ensures var steps := [Look(h, process, id, OpenOrCreate)] + ([Acquire(h)] + [CheckExists(h)]);
            && UnlockedRun(w, steps)
            && UnlockedFinal(w, steps) == w.(calls := w.calls[h := Call(process, id, OpenOrCreate, MayCreate)])
  {
    var w1 := Unlocked(w, Look(h, process, id, OpenOrCreate));
    var w2 := Unlocked(w1, Acquire(h));
    var w3 := Unlocked(w2, CheckExists(h));
    UnlockedFirst(w2, CheckExists(h), []);
    assert [CheckExists(h)] + [] == [CheckExists(h)];
    UnlockedFirst(w1, Acquire(h), [CheckExists(h)]);
    UnlockedFirst(w, Look(h, process, id, OpenOrCreate), [Acquire(h)] + [CheckExists(h)]);
    assert w3.calls == w.calls[h := Call(process, id, OpenOrCreate, MayCreate)];
  }

  /** One of two calls that both saw no log creates, opens and writes it. */
  lemma CreatesAndWrites(w: World, h: Handle)
    requires At(w, h, MayCreate)
    ensures var steps := [Create(h, true)] + ([Register(h)] + [Append(h)]);
            && UnlockedRun(w, steps)
            && UnlockedFinal(w, steps).logs == w.logs[w.calls[h].id := 1]
            && (forall other | other != h && At(w, other, MayCreate) :: At(UnlockedFinal(w, steps), other, MayCreate) &&
                  UnlockedFinal(w, steps).calls[other] == w.calls[other])
  {
    var w1 := Unlocked(w, Create(h, true));
    var w2 := Unlocked(w1, Register(h));
    UnlockedFirst(w2, Append(h), []);
    assert [Append(h)] + [] == [Append(h)];
    UnlockedFirst(w1, Register(h), [Append(h)]);
    UnlockedFirst(w, Create(h, true), [Register(h)] + [Append(h)]);
  }

  /** The lock is what the check of the log relies on: without it, a run from nothing of two
      processes that open the same session loses what the first wrote, when the second, which
      looked before the first created, creates the log again. */
  lemma CheckWithoutLockLosesALog(id: SessionId) returns (steps: seq<Step>, last: Step)
    ensures UnlockedRun(BOOT, steps) && Enabled(UnlockedFinal(BOOT, steps), last)
    ensures var w := UnlockedFinal(BOOT, steps);
            && id in w.logs && w.logs[id] == 1
            && id in Unlocked(w, last).logs && Unlocked(w, last).logs[id] == 0
  {
    ComesToCreate(BOOT, 1, 1, id);
    var a := [Look(1, 1, id, OpenOrCreate)] + ([Acquire(1)] + [CheckExists(1)]);
    var w1 := UnlockedFinal(BOOT, a);
    ComesToCreate(w1, 2, 2, id);
    var b := [Look(2, 2, id, OpenOrCreate)] + ([Acquire(2)] + [CheckExists(2)]);
    var w2 := UnlockedFinal(w1, b);
    CreatesAndWrites(w2, 1);
    var c := [Create(1, true)] + ([Register(1)] + [Append(1)]);
    UnlockedJoin(BOOT, a, b);
    UnlockedJoin(BOOT, a + b, c);
    steps := a + b + c;
    last := Create(2, true);
  }
}
