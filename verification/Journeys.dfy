// What becomes of a message over whole runs: a reply resumes its session, a
// message in the room starts one, and the commands do what they are for.
module Journeys {
  import opened Prelude
  import opened Store
  import opened Dispatching
  import opened Framing
  import opened Locking
  import opened Sessions
  import opened Replies
  import opened Turns
  import opened Requests

  // ----- The step that starts claude -----

  // Phases of a turn that is on its way to the room lock, and of one that has it.
  predicate OnItsWay(origin: Origin, p: Phase) {
    if origin == Spawned then p.Waiting? || p.Declining? || p.SpawnAcking? || p.SpawnRegistering?
    else p.Acking? || p.Registering? || p.Waiting?
  }

  // The step that starts claude: a spawn has to be acknowledged and registered
  // first; any other turn starts as soon as it gets the lock.
  predicate StartsIt(origin: Origin, step: Step, tid: TaskId) {
    if origin == Spawned then step == Registered(tid) else step.Acquire? && step.tid == tid
  }

  predicate HasStarted(steps: seq<Step>, m: nat, n: nat, origin: Origin, tid: TaskId)
    requires m <= n <= |steps|
  {
    exists k | m <= k < n :: StartsIt(origin, steps[k], tid)
  }

  lemma StartCourse(s: State, step: Step, u: State, tid: TaskId)
    requires tid in s.tasks && tid in u.tasks && Course(s, step, u, tid) && TaskOf(step) == Some(tid)
    requires Coming(s.tasks[tid].phase) ==> OnItsWay(s.tasks[tid].origin, s.tasks[tid].phase)
    ensures var a, b := s.tasks[tid], u.tasks[tid];
            && b.origin == a.origin
            && (Coming(b.phase) ==> OnItsWay(b.origin, b.phase))
            && (Coming(b.phase) <==> Coming(a.phase) && !StartsIt(a.origin, step, tid))
  {
  }

  lemma NotItsStep(origin: Origin, step: Step, tid: TaskId)
    requires TaskOf(step) != Some(tid)
    ensures !StartsIt(origin, step, tid)
  {
  }

  lemma {:induction false} StartedByNow(states: seq<State>, steps: seq<Step>, m: nat, n: nat, tid: TaskId)
    requires Run(states, steps) && m <= n < |states| && Lives(states, m, n, tid)
    requires OnItsWay(states[m].tasks[tid].origin, states[m].tasks[tid].phase)
    ensures var b, origin := states[n].tasks[tid], states[m].tasks[tid].origin;
            && !Chore(b.phase) && b.origin == origin
            && (Coming(b.phase) ==> OnItsWay(origin, b.phase))
            && (Coming(b.phase) <==> !HasStarted(steps, m, n, origin, tid))
    decreases n
  {
    if m < n {
      Earlier(states, steps, m, n, tid);
      hide Run, Course, Lives, Coming, Chore, OnItsWay, StartsIt;
      StartedByNow(states, steps, m, n - 1, tid);
      LastStep(states, steps, n, tid);
      if TaskOf(steps[n - 1]) == Some(tid) {
        StillATurn(states[n - 1], steps[n - 1], states[n], tid);
        StartCourse(states[n - 1], steps[n - 1], states[n], tid);
      } else {
        NotItsStep(states[m].tasks[tid].origin, steps[n - 1], tid);
      }
    }
  }

  lemma WaysAreComing(a: Task)
    requires OnItsWay(a.origin, a.phase)
    ensures Coming(a.phase)
  {
  }

  lemma StillATurn(s: State, step: Step, u: State, tid: TaskId)
    requires tid in s.tasks && tid in u.tasks && Course(s, step, u, tid)
    ensures !Chore(u.tasks[tid].phase)
  {
  }

  // ----- Replies -----

  lemma {:induction false} LaunchedFrom(states: seq<State>, steps: seq<Step>, m: nat, n: nat, tid: TaskId)
    requires |states| == |steps| + 1 && m < n < |states|
    ensures LaunchedBy(states, steps, m, n, tid) ==
            (if TaskOf(steps[m]) == Some(tid) then More(states[m].h.launches, states[m + 1].h.launches) else []) +
            LaunchedBy(states, steps, m + 1, n, tid)
    decreases n
  {
    if m + 1 < n {
      LaunchedFrom(states, steps, m, n - 1, tid);
    }
  }

  // A turn that gets going at state m + 1, by a step that starts no process.
  lemma TurnFollows(states: seq<State>, steps: seq<Step>, m: nat, n: nat, tid: TaskId)
    requires Run(states, steps) && m < n < |states| && Lives(states, m + 1, n, tid)
    requires states[m + 1].h.launches == states[m].h.launches
    requires OnItsWay(states[m + 1].tasks[tid].origin, states[m + 1].tasks[tid].phase)
    ensures var a, b := states[m + 1].tasks[tid], states[n].tasks[tid];
            && b.room == a.room && b.root == a.root && b.origin == a.origin
            && (a.origin != Spawned ==> b.session == a.session)
            && if HasStarted(steps, m + 1, n, a.origin, tid)
               then LaunchedBy(states, steps, m, n, tid) == [Launch(TurnOf(b), a.origin)]
               else LaunchedBy(states, steps, m, n, tid) == [] && OnItsWay(a.origin, b.phase)
  {
    WaysAreComing(states[m + 1].tasks[tid]);
    LaunchedFrom(states, steps, m, n, tid);
    hide Run, Lives, Coming, OnItsWay, LaunchedBy, HasStarted;
    StartsOnce(states, steps, m + 1, n, tid);
    StartedByNow(states, steps, m + 1, n, tid);
  }

  // A reply in a live thread is answered by that thread's session: its handler is
  // about to acknowledge it right after it was routed, and as long as it lives
  // and no restart comes, it works for that session in that thread; on getting the
  // room lock it starts claude for it, exactly once, and never before.
  lemma ReplyResumes(states: seq<State>, steps: seq<Step>, m: nat, n: nat, message: Message, root: EventId)
    requires Run(states, steps) && m < n < |states| && steps[m].Route? && steps[m].tid in states[m].tasks
    requires states[m].tasks[steps[m].tid].phase == Routing(message) && message.trusted && message.threadRoot.Some?
    requires root in states[m].db.sessions
    requires GetSessionByEvent(states[m].db, message.threadRoot.value) == Some((root, states[m].db.sessions[root]))
    requires forall k | m + 1 < k <= n :: steps[m].tid in states[k].tasks
    ensures steps[m].tid in states[n].tasks
    ensures var tid, turn := steps[m].tid, Turn(message.room, root, states[m].db.sessions[root].id);
            var b := states[n].tasks[tid];
            && TurnOf(b) == turn && b.origin == Replied && (n == m + 1 ==> b.phase == Acking)
            && if exists k | m < k < n :: steps[k].Acquire? && steps[k].tid == tid
               then LaunchedBy(states, steps, m, n, tid) == [Launch(turn, Replied)]
               else
                 && LaunchedBy(states, steps, m, n, tid) == []
                 && (b.phase.Acking? || b.phase.Registering? || b.phase.Waiting?)
  {
    var tid := steps[m].tid;
    assert Next(states[m], steps[m]) == Some(states[m + 1]);
    ReplyRoutes(states[m], steps[m], states[m + 1], message, root);
    assert Lives(states, m + 1, n, tid);
    hide Run, Lives, Next, LaunchedBy, GetSessionByEvent;
    TurnFollows(states, steps, m, n, tid);
    assert HasStarted(steps, m + 1, n, Replied, tid) <==>
           exists k | m < k < n :: steps[k].Acquire? && steps[k].tid == tid;
  }

  // So is a reply to anything that was posted about a session ...
  lemma ReplyIsResumed(states: seq<State>, steps: seq<Step>, m: nat, n: nat, message: Message, i: nat)
    requires Run(states, steps) && m < n < |states| && steps[m].Route? && steps[m].tid in states[m].tasks
    requires states[m].tasks[steps[m].tid].phase == Routing(message) && message.trusted
    requires i < |states[m].h.posts| && message.threadRoot == Some(states[m].h.posts[i].event)
    requires Speaks(states[m].h.posts[i].kind) && states[m].h.posts[i].event != ""
    requires states[m].h.posts[i].root in states[m].db.sessions
    requires forall k | m + 1 < k <= n :: steps[m].tid in states[k].tasks
    ensures steps[m].tid in states[n].tasks
    ensures var tid, post := steps[m].tid, states[m].h.posts[i];
            var turn, b := Turn(message.room, post.root, post.session), states[n].tasks[tid];
            && TurnOf(b) == turn && b.origin == Replied && (n == m + 1 ==> b.phase == Acking)
            && if exists k | m < k < n :: steps[k].Acquire? && steps[k].tid == tid
               then LaunchedBy(states, steps, m, n, tid) == [Launch(turn, Replied)]
               else
                 && LaunchedBy(states, steps, m, n, tid) == []
                 && (b.phase.Acking? || b.phase.Registering? || b.phase.Waiting?)
  {
    RepliesReachTheirSession(states, steps, m, i);
    hide Run, LaunchedBy;
    ReplyResumes(states, steps, m, n, message, states[m].h.posts[i].root);
  }

  // ... and a reply to the message the session began with.
  lemma RootReplyIsResumed(states: seq<State>, steps: seq<Step>, m: nat, n: nat, message: Message)
    requires Run(states, steps) && m < n < |states| && steps[m].Route? && steps[m].tid in states[m].tasks
    requires states[m].tasks[steps[m].tid].phase == Routing(message) && message.trusted
    requires message.threadRoot.Some? && message.threadRoot.value in states[m].db.sessions
    requires forall k | m + 1 < k <= n :: steps[m].tid in states[k].tasks
    ensures steps[m].tid in states[n].tasks
    ensures var tid, root := steps[m].tid, message.threadRoot.value;
            var turn, b := Turn(message.room, root, states[m].db.sessions[root].id), states[n].tasks[tid];
            && TurnOf(b) == turn && b.origin == Replied && (n == m + 1 ==> b.phase == Acking)
            && if exists k | m < k < n :: steps[k].Acquire? && steps[k].tid == tid
               then LaunchedBy(states, steps, m, n, tid) == [Launch(turn, Replied)]
               else
                 && LaunchedBy(states, steps, m, n, tid) == []
                 && (b.phase.Acking? || b.phase.Registering? || b.phase.Waiting?)
  {
    hide Run, LaunchedBy;
    ReplyResumes(states, steps, m, n, message, message.threadRoot.value);
  }

  // The loop's turn waits for the lock until it starts.
  lemma {:induction false} WaitsUntilItStarts(states: seq<State>, steps: seq<Step>, m: nat, n: nat, tid: TaskId)
    requires Run(states, steps) && m <= n < |states| && Lives(states, m, n, tid)
    requires states[m].tasks[tid].origin.Approved? && states[m].tasks[tid].phase.Waiting?
    ensures states[n].tasks[tid].phase.Waiting? || !Coming(states[n].tasks[tid].phase)
    ensures !Chore(states[n].tasks[tid].phase) && states[n].tasks[tid].origin == states[m].tasks[tid].origin
    decreases n
  {
    hide Next, Course, Coming, Chore;
    if m < n {
      Earlier(states, steps, m, n, tid);
      hide Lives, Run;
      WaitsUntilItStarts(states, steps, m, n - 1, tid);
      LastStep(states, steps, n, tid);
      if TaskOf(steps[n - 1]) == Some(tid) {
        StillATurn(states[n - 1], steps[n - 1], states[n], tid);
        WaitOrStart(states[n - 1], steps[n - 1], states[n], tid);
      }
    } else {
      WaitingIsNoChore(states[m].tasks[tid].phase);
    }
  }

  lemma WaitingIsNoChore(p: Phase)
    requires p.Waiting?
    ensures !Chore(p)
  {
  }

  lemma WaitOrStart(s: State, step: Step, u: State, tid: TaskId)
    requires tid in s.tasks && tid in u.tasks && Course(s, step, u, tid) && s.tasks[tid].origin.Approved?
    requires s.tasks[tid].phase.Waiting? || !Coming(s.tasks[tid].phase)
    ensures !Coming(u.tasks[tid].phase) && u.tasks[tid].origin == s.tasks[tid].origin
  {
  }

  // Once routed, a reply is not lost on its way to the room lock: the handler goes
  // away only if it raises, if a restart comes, or if the session is deleted
  // before the acknowledgement is out.
  lemma RepliesAreNotLost(states: seq<State>, steps: seq<Step>, n: nat, tid: TaskId)
    requires Run(states, steps) && n < |steps| && tid in states[n].tasks && tid !in states[n + 1].tasks
    requires states[n].tasks[tid].phase.Acking? || states[n].tasks[tid].phase.Registering? ||
             states[n].tasks[tid].phase.Waiting?
    ensures var a := states[n].tasks[tid];
            || steps[n].Crash?
            || (steps[n] == Abort(tid) && !a.phase.Waiting?)
            || (steps[n].Posted? && steps[n].tid == tid && a.phase.Acking? && a.root !in states[n].db.sessions)
  {
    LockInvAlways(states, steps, n);
    assert Next(states[n], steps[n]) == Some(states[n + 1]);
    hide LockInv, Next, Run;
    if TaskOf(steps[n]) == Some(tid) {
      TurnCourse(states[n], steps[n], states[n + 1], tid);
    } else if !steps[n].Crash? {
      OtherTasksStay(states[n], steps[n], states[n + 1], tid);
    }
  }

  // Any turn goes away only in one of these ways: it is done, it raises, a restart
  // comes, or the session it is about to post for has been deleted.
  lemma TurnsEndForAReason(states: seq<State>, steps: seq<Step>, n: nat, tid: TaskId)
    requires Run(states, steps) && n < |steps| && tid in states[n].tasks && tid !in states[n + 1].tasks
    requires !Chore(states[n].tasks[tid].phase)
    ensures steps[n].Crash? || (TaskOf(steps[n]) == Some(tid) && Ends(states[n].db, states[n].tasks[tid], steps[n]))
  {
    LockInvAlways(states, steps, n);
    assert Next(states[n], steps[n]) == Some(states[n + 1]);
    hide LockInv, Next, Run;
    if TaskOf(steps[n]) == Some(tid) {
      TurnCourse(states[n], steps[n], states[n + 1], tid);
    } else if !steps[n].Crash? {
      OtherTasksStay(states[n], steps[n], states[n + 1], tid);
    }
  }

  // ----- Spawns -----

  // A message that replies to nothing, and is no command, starts a session of its
  // own in its room: claude is started once, when the new session is registered,
  // and never before.
  lemma MessageIsSpawned(states: seq<State>, steps: seq<Step>, m: nat, n: nat, message: Message)
    requires Run(states, steps) && m < n < |states| && steps[m].Route? && steps[m].tid in states[m].tasks
    requires states[m].tasks[steps[m].tid].phase == Routing(message)
    requires message.trusted && message.threadRoot.None? && message.command.NoCommand?
    requires forall k | m + 1 < k <= n :: steps[m].tid in states[k].tasks
    ensures steps[m].tid in states[n].tasks
    ensures var tid, b := steps[m].tid, states[n].tasks[steps[m].tid];
            && b.room == message.room && b.root == message.id && b.origin == Spawned
            && (n == m + 1 ==> b.phase == Waiting)
            && LaunchedBy(states, steps, m, n, tid) ==
               if exists k | m < k < n :: steps[k] == Registered(tid)
               then [Launch(Turn(message.room, message.id, b.session), Spawned)] else []
  {
    var tid := steps[m].tid;
    assert Next(states[m], steps[m]) == Some(states[m + 1]);
    SpawnRoutes(states[m], steps[m], states[m + 1], message);
    assert Lives(states, m + 1, n, tid);
    hide Run, Lives, Next, LaunchedBy;
    TurnFollows(states, steps, m, n, tid);
    assert HasStarted(steps, m + 1, n, Spawned, tid) <==> exists k | m < k < n :: steps[k] == Registered(tid);
  }

  // The room lock was granted for this spawn at step k: with its session id, or with the rate-limit note.
  ghost predicate Granted(states: seq<State>, steps: seq<Step>, k: nat, tid: TaskId, b: Task)
    requires k < |steps| < |states|
  {
    && steps[k].Acquire? && steps[k].tid == tid && b.room !in states[k].locks
    && var last := if b.room in states[k].lastSpawn then states[k].lastSpawn[b.room] else 0.0;
       if b.phase.Declining? then steps[k].wall - last < 10.0
       else
         && steps[k].wall - last >= 10.0
         && states[k + 1].lastSpawn == states[k].lastSpawn[b.room := steps[k].wall]
         && b.session == steps[k].session && b.session !in states[k].transcripts
         && forall r | r in states[k].db.sessions :: states[k].db.sessions[r].id != b.session
  }

  // The spawn's session was stored at step k, when its acknowledgement was out.
  ghost predicate Stored(states: seq<State>, steps: seq<Step>, k: nat, tid: TaskId, b: Task)
    requires k < |steps| < |states|
  {
    && steps[k].Posted? && steps[k].tid == tid && b.room in states[k].agents
    && states[k + 1].db.sessions ==
       states[k].db.sessions[b.root := Session(b.room, states[k].agents[b.room], b.session, steps[k].now, steps[k].now)]
  }

  lemma SpawnGranted(s: State, tid: TaskId, wall: real, id: SessionId)
    requires AcquireStep(s, tid, wall, id).Some? && s.tasks[tid].origin == Spawned
    ensures Granted([s, AcquireStep(s, tid, wall, id).value], [Acquire(tid, wall, id)], 0, tid,
                    AcquireStep(s, tid, wall, id).value.tasks[tid])
  {
    hide StampsOf;
  }

  lemma SpawnStored(s: State, tid: TaskId, event: EventId, now: int)
    requires PostedStep(s, tid, event, now).Some? && s.tasks[tid].phase.SpawnAcking?
    requires tid in PostedStep(s, tid, event, now).value.tasks
    ensures Stored([s, PostedStep(s, tid, event, now).value], [Posted(tid, event, now)], 0, tid, s.tasks[tid])
  {
    var task, v := s.tasks[tid], Logged(s, PostOf(s.tasks[tid], event));
    hide FreshEvent, AliasThen, AbortTask;
    LeaveGoes(v, tid);
    match InsertSession(s.db, task.root, task.room, s.agents[task.room], task.session, now)
    case Err(_) =>
    case Ok(t) => AliasKeepsSessions(v.(db := t), tid, event, task.root, SpawnRegistering);
  }

  lemma AliasKeepsSessions(v: State, tid: TaskId, event: EventId, root: EventId, p: Phase)
    requires tid in v.tasks
    ensures AliasThen(v, tid, event, root, p).db.sessions == v.db.sessions
  {
    hide Unlocked;
  }

  // What is behind a spawn that has come this far.
  ghost predicate WellBegun(states: seq<State>, steps: seq<Step>, m: nat, n: nat, tid: TaskId, b: Task)
    requires m <= n < |states| == |steps| + 1
  {
    && (!b.phase.Waiting? ==> exists k | m <= k < n :: Granted(states, steps, k, tid, b))
    && (b.phase.SpawnRegistering? || !Coming(b.phase) ==> exists k | m <= k < n :: Stored(states, steps, k, tid, b))
  }

  // A spawn is admitted exactly when ten seconds have passed since the last one
  // of its room, and gets a session id that is new; its row is in the table, with
  // the room's agent, before claude is registered or started for it.
  lemma {:induction false} SpawnIsPrepared(states: seq<State>, steps: seq<Step>, m: nat, n: nat, tid: TaskId)
    requires Run(states, steps) && m <= n < |states| && Lives(states, m, n, tid)
    requires states[m].tasks[tid].origin == Spawned && states[m].tasks[tid].phase.Waiting?
    ensures WellBegun(states, steps, m, n, tid, states[n].tasks[tid])
    decreases n
  {
    hide Next, Course, Chore, OnItsWay, Granted, Stored;
    if m < n {
      Earlier(states, steps, m, n, tid);
      hide Run, Lives, WellBegun;
      SpawnIsPrepared(states, steps, m, n - 1, tid);
      PreparedOn(states, steps, m, n, tid);
    }
  }

  lemma PreparedOn(states: seq<State>, steps: seq<Step>, m: nat, n: nat, tid: TaskId)
    requires Run(states, steps) && m < n < |states| && Lives(states, m, n - 1, tid) && tid in states[n].tasks
    requires states[m].tasks[tid].origin == Spawned && states[m].tasks[tid].phase.Waiting?
    requires WellBegun(states, steps, m, n - 1, tid, states[n - 1].tasks[tid])
    ensures WellBegun(states, steps, m, n, tid, states[n].tasks[tid])
  {
    hide Next, Course, Coming, Chore, OnItsWay, WellBegun;
    assert tid in states[m].tasks && tid in states[n - 1].tasks;
    hide Lives;
    var a, b := states[n - 1].tasks[tid], states[n].tasks[tid];
    assert OnItsWay(Spawned, states[m].tasks[tid].phase) by {
      WaitsForIt(states[m].tasks[tid].phase);
    }
    StartedByNow(states, steps, m, n - 1, tid);
    LastStep(states, steps, n, tid);
    if TaskOf(steps[n - 1]) == Some(tid) {
      SpawnStep(states, steps, m, n, tid);
    } else {
      PreparedStays(states, steps, m, n, tid, a, b);
    }
  }

  lemma WaitsForIt(p: Phase)
    requires p.Waiting?
    ensures OnItsWay(Spawned, p)
  {
  }

  lemma PreparedStays(states: seq<State>, steps: seq<Step>, m: nat, n: nat, tid: TaskId, a: Task, b: Task)
    requires m < n < |states| == |steps| + 1 && WellBegun(states, steps, m, n - 1, tid, a)
    requires b == a.(phase := b.phase) && (b.phase.Declining? <==> a.phase.Declining?)
    requires a.phase.Waiting? ==> b.phase.Waiting?
    requires b.phase.SpawnRegistering? || !Coming(b.phase) ==> a.phase.SpawnRegistering? || !Coming(a.phase)
    ensures WellBegun(states, steps, m, n, tid, b)
  {
    hide Coming;
    if !b.phase.Waiting? {
      var k :| m <= k < n - 1 && Granted(states, steps, k, tid, a);
      assert Granted(states, steps, k, tid, b);
    }
    if b.phase.SpawnRegistering? || !Coming(b.phase) {
      var k :| m <= k < n - 1 && Stored(states, steps, k, tid, a);
      assert Stored(states, steps, k, tid, b);
    }
  }

  lemma SpawnStep(states: seq<State>, steps: seq<Step>, m: nat, n: nat, tid: TaskId)
    requires m < n < |states| == |steps| + 1 && Next(states[n - 1], steps[n - 1]) == Some(states[n])
    requires tid in states[n - 1].tasks && tid in states[n].tasks && TaskOf(steps[n - 1]) == Some(tid)
    requires var a := states[n - 1].tasks[tid];
             && WellBegun(states, steps, m, n - 1, tid, a) && a.origin == Spawned
             && (Coming(a.phase) ==> OnItsWay(Spawned, a.phase)) && !Chore(a.phase)
    requires Course(states[n - 1], steps[n - 1], states[n], tid)
    ensures WellBegun(states, steps, m, n, tid, states[n].tasks[tid])
  {
    var s, step, u, a, b := states[n - 1], steps[n - 1], states[n], states[n - 1].tasks[tid], states[n].tasks[tid];
    SpawnCourses(s, step, u, tid);
    hide Course, Coming, OnItsWay, Chore, AcquireStep, PostedStep;
    if step.Acquire? {
      SpawnGranted(s, tid, step.wall, step.session);
      hide Next;
      assert Granted(states, steps, n - 1, tid, b);
    } else if a.phase.SpawnAcking? {
      SpawnStored(s, tid, step.event, step.now);
      hide Next;
      assert Stored(states, steps, n - 1, tid, b);
      var k :| m <= k < n - 1 && Granted(states, steps, k, tid, a);
      assert Granted(states, steps, k, tid, b);
    } else {
      hide Next, WellBegun;
      PreparedStays(states, steps, m, n, tid, a, b);
    }
  }

  // Where the steps of a spawn lead.
  lemma SpawnCourses(s: State, step: Step, u: State, tid: TaskId)
    requires tid in s.tasks && tid in u.tasks && Course(s, step, u, tid) && s.tasks[tid].origin == Spawned
    requires Coming(s.tasks[tid].phase) ==> OnItsWay(Spawned, s.tasks[tid].phase)
    ensures var a, b := s.tasks[tid], u.tasks[tid];
            if step.Acquire? then
              a.phase.Waiting? && (b.phase.Declining? || b.phase.SpawnAcking?) && b.room == a.room && Coming(b.phase)
            else
              && b == a.(phase := b.phase) && !b.phase.Declining? && !a.phase.Declining? && !a.phase.Waiting?
              && (a.phase.SpawnAcking? <==> b.phase.SpawnRegistering?)
              && (a.phase.SpawnAcking? ==> step.Posted?)
              && (!Coming(b.phase) ==> a.phase.SpawnRegistering? || !Coming(a.phase))
  {
  }

  // ----- Output -----

  // Posts of one kind, all in this room and thread and about this session.
  predicate AllSaid(posts: seq<Post>, turn: Turn, kind: PostKind) {
    forall p | p in posts :: Turn(p.room, p.root, p.session) == turn && p.kind == kind
  }

  // How far the response is: so many messages are out, of so many.
  predicate Responding(posts: seq<Post>, turn: Turn, chunks: nat, p: Phase) {
    && AllSaid(posts, turn, Chunk)
    && (p.Posting? || p.Querying? || p.Queried? || p.Linking?)
    && |posts| + (if p.Posting? then p.left else 0) == chunks
    && (p.Posting? ==> p.left >= 1)
  }

  lemma {:induction false} ResponseLasts(states: seq<State>, steps: seq<Step>, m: nat, n: nat, tid: TaskId)
    requires Run(states, steps) && m < n < |states| && steps[m].Exited? && steps[m].tid == tid
    requires tid in states[m].tasks && Lives(states, m + 1, n, tid)
    ensures var turn, b := TurnOf(states[m].tasks[tid]), states[n].tasks[tid];
            && !Chore(b.phase) && TurnOf(b) == turn
            && Responding(PostedBy(states, steps, m + 1, n, tid), turn, steps[m].chunks, b.phase)
    decreases n
  {
    hide Next, Course, Chore, Responding;
    if n == m + 1 {
      ResponseStarts(states, steps, m);
    } else {
      Earlier(states, steps, m + 1, n, tid);
      hide Run, Lives;
      ResponseLasts(states, steps, m, n - 1, tid);
      ResponseGoesOn(states, steps, m, n, tid);
    }
  }

  // Claude's output goes out in full, as so many messages in the turn's thread,
  // before anything else happens to the turn.
  lemma ResponseIsPosted(states: seq<State>, steps: seq<Step>, m: nat, n: nat, tid: TaskId)
    requires Run(states, steps) && m < n < |states| && steps[m].Exited? && steps[m].tid == tid
    requires forall k | m + 1 < k <= n :: tid in states[k].tasks
    ensures tid in states[m].tasks && tid in states[n].tasks
    ensures Responding(PostedBy(states, steps, m + 1, n, tid), TurnOf(states[m].tasks[tid]), steps[m].chunks,
                       states[n].tasks[tid].phase)
  {
    assert Next(states[m], steps[m]) == Some(states[m + 1]);
    ExitedResponds(states[m], steps[m], states[m + 1]);
    assert Lives(states, m + 1, n, tid);
    hide Run, Lives, Next, PostedBy, Responding;
    ResponseLasts(states, steps, m, n, tid);
  }

  lemma ResponseStarts(states: seq<State>, steps: seq<Step>, m: nat)
    requires Run(states, steps) && m < |steps| && steps[m].Exited?
    requires steps[m].tid in states[m].tasks && steps[m].tid in states[m + 1].tasks
    ensures var tid := steps[m].tid;
            var turn, b := TurnOf(states[m].tasks[tid]), states[m + 1].tasks[tid];
            !Chore(b.phase) && TurnOf(b) == turn &&
            Responding(PostedBy(states, steps, m + 1, m + 1, tid), turn, steps[m].chunks, b.phase)
  {
    assert Next(states[m], steps[m]) == Some(states[m + 1]);
    hide Next, Run, Chore, Responding;
    ExitedResponds(states[m], steps[m], states[m + 1]);
  }

  lemma ResponseGoesOn(states: seq<State>, steps: seq<Step>, m: nat, n: nat, tid: TaskId)
    requires Run(states, steps) && m + 1 < n < |states| && steps[m].Exited? && tid in states[m].tasks
    requires tid in states[n - 1].tasks && tid in states[n].tasks
    requires var turn, a := TurnOf(states[m].tasks[tid]), states[n - 1].tasks[tid];
             && !Chore(a.phase) && TurnOf(a) == turn
             && Responding(PostedBy(states, steps, m + 1, n - 1, tid), turn, steps[m].chunks, a.phase)
    ensures var turn, b := TurnOf(states[m].tasks[tid]), states[n].tasks[tid];
            && !Chore(b.phase) && TurnOf(b) == turn
            && Responding(PostedBy(states, steps, m + 1, n, tid), turn, steps[m].chunks, b.phase)
  {
    hide Next, Course, Chore, Responding, Init;
    PostedNext(states, steps, m + 1, n, tid);
    LastStep(states, steps, n, tid);
    hide Run, PostedBy;
    if TaskOf(steps[n - 1]) == Some(tid) {
      StillATurn(states[n - 1], steps[n - 1], states[n], tid);
      var posts := PostedBy(states, steps, m + 1, n - 1, tid);
      RespondsOn(states[n - 1], steps[n - 1], states[n], tid, posts, steps[m].chunks);
    } else {
      assert PostedBy(states, steps, m + 1, n, tid) == PostedBy(states, steps, m + 1, n - 1, tid);
    }
  }

  lemma ExitedResponds(s: State, step: Step, u: State)
    requires Next(s, step) == Some(u) && step.Exited?
    ensures step.tid in s.tasks && step.tid in u.tasks
    ensures Responding([], TurnOf(s.tasks[step.tid]), step.chunks, u.tasks[step.tid].phase)
    ensures TurnOf(u.tasks[step.tid]) == TurnOf(s.tasks[step.tid]) && !Chore(u.tasks[step.tid].phase)
  {
    hide TouchSession;
  }

  lemma RespondsOn(s: State, step: Step, u: State, tid: TaskId, posts: seq<Post>, chunks: nat)
    requires tid in s.tasks && tid in u.tasks && Course(s, step, u, tid)
    requires Responding(posts, TurnOf(s.tasks[tid]), chunks, s.tasks[tid].phase)
    ensures TurnOf(u.tasks[tid]) == TurnOf(s.tasks[tid])
    ensures Responding(posts + More(s.h.posts, u.h.posts), TurnOf(s.tasks[tid]), chunks, u.tasks[tid].phase)
  {
    MoreIs(s.h.posts, if step.Posted? then [Said(s.tasks[tid], step.event)] else []);
  }

  // Waiting to say what went wrong, with nothing posted yet.
  ghost predicate InTrouble(states: seq<State>, steps: seq<Step>, m: nat, n: nat, tid: TaskId)
    requires m < n < |states| == |steps| + 1 && tid in states[m].tasks && tid in states[n].tasks
  {
    var a, b := states[m].tasks[tid], states[n].tasks[tid];
    (b.phase.Reaping? || b.phase.Warning?) && TurnOf(b) == TurnOf(a) && PostedBy(states, steps, m + 1, n, tid) == []
  }

  lemma {:induction false} TroubleLasts(states: seq<State>, steps: seq<Step>, m: nat, n: nat, tid: TaskId)
    requires Run(states, steps) && m < n < |states| && tid in states[m].tasks && Lives(states, m + 1, n, tid)
    requires steps[m] == TimedOut(tid) || steps[m] == Failed(tid)
    ensures InTrouble(states, steps, m, n, tid)
    decreases n
  {
    hide Next, Course;
    if n == m + 1 {
      assert Next(states[m], steps[m]) == Some(states[n]);
      TroubleStarts(states[m], steps[m], states[n], tid);
    } else {
      Earlier(states, steps, m + 1, n, tid);
      hide Run, Lives;
      TroubleLasts(states, steps, m, n - 1, tid);
      TroubleGoesOn(states, steps, m, n, tid);
    }
  }

  lemma TroubleGoesOn(states: seq<State>, steps: seq<Step>, m: nat, n: nat, tid: TaskId)
    requires Run(states, steps) && m + 1 < n < |states| && tid in states[m].tasks
    requires tid in states[n - 1].tasks && tid in states[n].tasks && InTrouble(states, steps, m, n - 1, tid)
    ensures InTrouble(states, steps, m, n, tid)
  {
    hide Next, Course, Init;
    PostedNext(states, steps, m + 1, n, tid);
    LastStep(states, steps, n, tid);
    hide Run, PostedBy;
    if TaskOf(steps[n - 1]) == Some(tid) {
      TroubleStep(states[n - 1], steps[n - 1], states[n], tid);
    }
  }

  // A turn that ran out of time, or a resume that failed, ends with one message in
  // its thread that says so, and posts nothing before that.
  lemma TroubleIsReported(states: seq<State>, steps: seq<Step>, m: nat, n: nat, tid: TaskId)
    requires Run(states, steps) && m < n < |steps| && tid in states[m].tasks
    requires steps[m] == TimedOut(tid) || (steps[m] == Failed(tid) && states[m].tasks[tid].origin.Approved?)
    requires forall k | m + 1 < k <= n :: tid in states[k].tasks
    requires steps[n].Posted? && steps[n].tid == tid
    ensures var a := states[m].tasks[tid];
            && tid in states[n].tasks
            && PostedBy(states, steps, m + 1, n, tid) == []
            && tid !in states[n + 1].tasks
            && states[n + 1].h.posts ==
               states[n].h.posts + [Post(a.room, a.root, a.session, Trouble, steps[n].event)]
  {
    hide Next, Course, Init;
    assert Next(states[m], steps[m]) == Some(states[m + 1]);
    TroubleComes(states[m], steps[m], states[m + 1], tid);
    assert Lives(states, m + 1, n, tid);
    TroubleLasts(states, steps, m, n, tid);
    assert Next(states[n], steps[n]) == Some(states[n + 1]);
    hide Run, Lives, PostedBy;
    TurnCourse(states[n], steps[n], states[n + 1], tid);
    TroubleEnds(states[n], steps[n], states[n + 1], tid);
  }

  lemma TroubleComes(s: State, step: Step, u: State, tid: TaskId)
    requires Next(s, step) == Some(u) && tid in s.tasks
    requires step == TimedOut(tid) || (step == Failed(tid) && s.tasks[tid].origin.Approved?)
    ensures tid in u.tasks
  {
  }

  lemma TroubleStarts(s: State, step: Step, u: State, tid: TaskId)
    requires Next(s, step) == Some(u) && (step == TimedOut(tid) || step == Failed(tid)) && tid in s.tasks
    requires tid in u.tasks
    ensures (u.tasks[tid].phase.Reaping? || u.tasks[tid].phase.Warning?) && TurnOf(u.tasks[tid]) == TurnOf(s.tasks[tid])
  {
    hide Unlocked;
  }

  lemma TroubleStep(s: State, step: Step, u: State, tid: TaskId)
    requires tid in s.tasks && tid in u.tasks && Course(s, step, u, tid)
    requires s.tasks[tid].phase.Reaping? || s.tasks[tid].phase.Warning?
    ensures u.tasks[tid].phase.Warning? && TurnOf(u.tasks[tid]) == TurnOf(s.tasks[tid])
    ensures More(s.h.posts, u.h.posts) == []
  {
    MoreIs(s.h.posts, []);
  }

  lemma TroubleEnds(s: State, step: Step, u: State, tid: TaskId)
    requires tid in s.tasks && Course(s, step, u, tid) && step.Posted?
    requires s.tasks[tid].phase.Reaping? || s.tasks[tid].phase.Warning?
    ensures var a := s.tasks[tid];
            tid !in u.tasks && u.h.posts == s.h.posts + [Post(a.room, a.root, a.session, Trouble, step.event)]
  {
  }

  // ----- Nobody gets stuck -----

  // A turn that has begun can always go on, but for waiting while another holds
  // the room lock; and whoever holds it can go on.
  lemma TurnsCanGoOn(states: seq<State>, steps: seq<Step>, n: nat, tid: TaskId)
    requires Run(states, steps) && n < |states| && tid in states[n].tasks && !Chore(states[n].tasks[tid].phase)
    ensures var s, a := states[n], states[n].tasks[tid];
            if a.phase.Waiting? && a.room in s.locks then
              var owner := s.locks[a.room];
              && owner != tid && owner in s.tasks && s.tasks[owner].room == a.room
              && Holding(s.tasks[owner].phase) && !Chore(s.tasks[owner].phase)
            else exists step :: TaskOf(step) == Some(tid) && !step.Abort? && Next(s, step).Some?
  {
    LockInvAlways(states, steps, n);
    var s, a := states[n], states[n].tasks[tid];
    InvOk(s, tid, a.room);
    hide LockInv, Run;
    if !(a.phase.Waiting? && a.room in s.locks) {
      var step := OwnNext(s, tid);
    }
  }

  // A step that a turn may take next.
  lemma OwnNext(s: State, tid: TaskId) returns (step: Step)
    requires tid in s.tasks && !Chore(s.tasks[tid].phase) && TaskOk(s, tid)
    requires s.tasks[tid].phase.Waiting? ==> s.tasks[tid].room !in s.locks
    ensures TaskOf(step) == Some(tid) && !step.Abort? && Next(s, step).Some?
  {
    hide Finish, AliasThen, AliasFinish, SpawnAcked, InPhase;
    var a := s.tasks[tid];
    match a.phase
    case Acking => step := Posted(tid, "", 0);
    case Registering => step := Registered(tid);
    case Waiting => step := Acquire(tid, LastSpawn(s.lastSpawn, a.room), "");
    case Declining => step := Posted(tid, "", 0);
    case SpawnAcking => step := Posted(tid, "", 0);
    case SpawnRegistering => step := Registered(tid);
    case Launching(_) => step := Launched(tid, 0);
    case Running(_, _) => step := Exited(tid, 1, 0);
    case Reaping(_) => step := Reaped(tid);
    case Warning => step := Posted(tid, "", 0);
    case Posting(_, _) => step := Posted(tid, "", 0);
    case Querying(_) => step := Query(tid, None);
    case Queried(_, _) => step := Record(tid, "", 0);
    case Linking => step := Linked(tid);
  }
}
