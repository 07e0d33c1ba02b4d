// The course of a turn over whole runs: a message or an approval leads to one
// start of claude, in the thread and with the session it is about, and what
// claude returns is posted there in full.
module Turns {
  import opened Prelude
  import opened Store
  import opened Dispatching
  import opened Framing
  import opened Locking

  // ----- One step of a turn -----

  // A phase of a task that runs no turn: it routes a message or answers a command.
  predicate Chore(p: Phase) {
    p.Routing? || p.Mirroring? || p.MirrorAcking? || p.Heading? || p.Enumerating? || p.Cancelling? || p.Noting?
  }

  // The phase in which a step of its own leaves a turn that goes on.
  predicate Onward(clock: nat, a: Task, step: Step, p: Phase) {
    match a.phase
    case Acking => step.Posted? && p == Registering
    case Registering => step.Registered? && p == Waiting
    case Waiting =>
      step.Acquire? && if a.origin == Spawned then p == Declining || p == SpawnAcking else p == Launching(clock)
    case SpawnAcking => step.Posted? && p == SpawnRegistering
    case SpawnRegistering => step.Registered? && p == Launching(clock)
    case Launching(start) =>
      || (step.Launched? && p == Running(start, step.proc))
      || (step.Failed? && a.origin.Approved? && p == Warning)
    case Running(start, proc) =>
      || (step.Exited? && step.chunks > 0 && p == Posting(start, step.chunks))
      || (step.TimedOut? && p == Reaping(proc))
      || (step.Failed? && a.origin.Approved? && p == Warning)
    case Reaping(_) => step.Reaped? && p == Warning
    case Posting(start, left) => step.Posted? && p == if left <= 1 then Querying(start) else Posting(start, left - 1)
    case Querying(start) => step.Query? && p == Queried(start, step.found)
    case Queried(_, found) => step.Record? && found.Some? && p == Linking
    case _ => false
  }

  // How a turn ends: it is done, it raises, or the thread it posts to is gone.
  predicate Ends(t: Tables, a: Task, step: Step) {
    || (step.Posted? && (a.phase.Declining? || a.phase.Warning?))
    || (step.Record? && a.phase.Queried? && a.phase.found.None?)
    || (step.Linked? && a.phase.Linking?)
    || (step.Failed? && (a.phase.Launching? || a.phase.Running?) && !a.origin.Approved?)
    || (step.Posted? && (a.phase.Acking? || a.phase.Posting?) && a.root !in t.sessions)
    || (step.Posted? && a.phase.SpawnAcking? && a.root in t.sessions)
    || (step.Abort? && !a.phase.Waiting?)
  }

  // What a turn posts in a phase.
  function Said(a: Task, event: EventId): Post {
    Post(a.room, a.root, a.session,
         if a.phase.Posting? then Chunk
         else if a.phase.Warning? then Trouble
         else if a.phase.Declining? then RateLimited
         else Progress,
         event)
  }

  // A step of its own moves a turn on, or ends it; it starts claude on entering
  // Launching and not otherwise, and posts exactly when it returns from a post.
  ghost predicate Course(s: State, step: Step, u: State, tid: TaskId)
    requires tid in s.tasks
  {
    var a := s.tasks[tid];
    && (if tid in u.tasks then
          && Onward(s.clock, a, step, u.tasks[tid].phase)
          && u.tasks[tid] == a.(phase := u.tasks[tid].phase, session := u.tasks[tid].session)
          && (u.tasks[tid].phase.SpawnAcking? || u.tasks[tid].session == a.session)
        else Ends(s.db, a, step))
    && u.h.launches == s.h.launches +
         (if tid in u.tasks && u.tasks[tid].phase.Launching? then [Launch(TurnOf(a), a.origin)] else [])
    && u.h.posts == s.h.posts + if step.Posted? then [Said(a, step.event)] else []
  }

  lemma LeaveGoes(v: State, tid: TaskId)
    requires tid in v.tasks
    ensures Finish(v, tid).h == v.h && tid !in Finish(v, tid).tasks
    ensures AbortTask(v, tid).h == v.h && tid !in AbortTask(v, tid).tasks
  {
    hide Unlocked;
  }

  lemma RefusedIsGone(t: Tables, event: EventId, root: EventId)
    ensures RegisterAlias(t, event, root).Err? ==> root !in t.sessions
  {
  }

  lemma AliasThenGoes(v: State, tid: TaskId, event: EventId, root: EventId, p: Phase)
    requires tid in v.tasks
    ensures var u := AliasThen(v, tid, event, root, p);
            && u.h == v.h
            && if tid in u.tasks then u.tasks[tid] == v.tasks[tid].(phase := p) else root !in v.db.sessions
  {
    RefusedIsGone(v.db, event, root);
    LeaveGoes(v, tid);
    hide RegisterAlias, AbortTask;
  }

  lemma AliasFinishGoes(v: State, tid: TaskId, event: EventId, root: EventId)
    requires tid in v.tasks
    ensures AliasFinish(v, tid, event, root).h == v.h && tid !in AliasFinish(v, tid, event, root).tasks
  {
    LeaveGoes(v, tid);
    match RegisterAlias(v.db, event, root) {
      case Ok(t) => LeaveGoes(v.(db := t), tid);
      case Err(_) =>
    }
    hide RegisterAlias, AbortTask, Finish;
  }

  lemma SpawnAckedGoes(v: State, tid: TaskId, event: EventId, agent: AgentName, now: int)
    requires tid in v.tasks
    ensures var u := SpawnAcked(v, tid, event, agent, now);
            && u.h == v.h
            && if tid in u.tasks then u.tasks[tid] == v.tasks[tid].(phase := SpawnRegistering)
               else v.tasks[tid].root in v.db.sessions
  {
    var task := v.tasks[tid];
    hide AliasThen, AbortTask;
    LeaveGoes(v, tid);
    match InsertSession(v.db, task.root, task.room, agent, task.session, now)
    case Err(_) =>
    case Ok(t) => AliasThenGoes(v.(db := t), tid, event, task.root, SpawnRegistering);
  }

  lemma PostedCourse(s: State, tid: TaskId, event: EventId, now: int)
    requires PostedStep(s, tid, event, now).Some? && !Chore(s.tasks[tid].phase)
    ensures Course(s, Posted(tid, event, now), PostedStep(s, tid, event, now).value, tid)
  {
    hide AliasThen, AliasFinish, SpawnAcked, Finish, FreshEvent;
    var a, v := s.tasks[tid], Logged(s, PostOf(s.tasks[tid], event));
    assert PostOf(a, event) == Said(a, event);
    match a.phase
    case Acking => AliasThenGoes(v, tid, event, a.root, Registering);
    case SpawnAcking => SpawnAckedGoes(v, tid, event, s.agents[a.room], now);
    case Warning => AliasFinishGoes(v, tid, event, a.root);
    case Posting(start, left) =>
      AliasThenGoes(v, tid, event, a.root, if left <= 1 then Querying(start) else Posting(start, left - 1));
    case Declining => LeaveGoes(v, tid);
    case _ =>
  }

  lemma RegisteredCourse(s: State, tid: TaskId)
    requires RegisteredStep(s, tid).Some? && !Chore(s.tasks[tid].phase)
    ensures Course(s, Registered(tid), RegisteredStep(s, tid).value, tid)
  {
  }

  // A turn that goes on without being started.
  lemma WaitsOn(s: State, step: Step, u: State, tid: TaskId, b: Task)
    requires tid in s.tasks && !step.Posted? && u.tasks == s.tasks[tid := b] && !b.phase.Launching?
    requires Onward(s.clock, s.tasks[tid], step, b.phase)
    requires b == s.tasks[tid].(phase := b.phase, session := b.session)
    requires b.phase.SpawnAcking? || b.session == s.tasks[tid].session
    requires u.h.launches == s.h.launches && u.h.posts == s.h.posts
    ensures Course(s, step, u, tid)
  {
  }

  lemma SpawnCourse(s: State, tid: TaskId, wall: real, id: SessionId)
    requires AcquireStep(s, tid, wall, id).Some? && s.tasks[tid].origin == Spawned
    ensures Course(s, Acquire(tid, wall, id), AcquireStep(s, tid, wall, id).value, tid)
  {
    hide Course, FreshSession, LastSpawn, StampsOf;
    var u := AcquireStep(s, tid, wall, id).value;
    WaitsOn(s, Acquire(tid, wall, id), u, tid, u.tasks[tid]);
  }

  lemma AcquireCourse(s: State, tid: TaskId, wall: real, id: SessionId)
    requires AcquireStep(s, tid, wall, id).Some?
    ensures Course(s, Acquire(tid, wall, id), AcquireStep(s, tid, wall, id).value, tid)
  {
    if s.tasks[tid].origin == Spawned {
      hide Course, AcquireStep;
      SpawnCourse(s, tid, wall, id);
    } else {
      hide FreshSession, LastSpawn, StampsOf;
      assert AcquireStep(s, tid, wall, id).value == StartTurn(s.(locks := s.locks[s.tasks[tid].room := tid]), tid);
    }
  }

  lemma LaunchedCourse(s: State, tid: TaskId, proc: Proc)
    requires LaunchedStep(s, tid, proc).Some?
    ensures Course(s, Launched(tid, proc), LaunchedStep(s, tid, proc).value, tid)
  {
  }

  lemma ExitedCourse(s: State, tid: TaskId, chunks: nat, now: int)
    requires ExitedStep(s, tid, chunks, now).Some?
    ensures Course(s, Exited(tid, chunks, now), ExitedStep(s, tid, chunks, now).value, tid)
  {
    hide TouchSession;
  }

  lemma TimedOutCourse(s: State, tid: TaskId)
    requires TimedOutStep(s, tid).Some?
    ensures Course(s, TimedOut(tid), TimedOutStep(s, tid).value, tid)
  {
  }

  lemma ReapedCourse(s: State, tid: TaskId)
    requires ReapedStep(s, tid).Some?
    ensures Course(s, Reaped(tid), ReapedStep(s, tid).value, tid)
  {
  }

  lemma FailedCourse(s: State, tid: TaskId)
    requires FailedStep(s, tid).Some?
    ensures Course(s, Failed(tid), FailedStep(s, tid).value, tid)
  {
    LeaveGoes(s, tid);
    hide AbortTask;
  }

  lemma QueryCourse(s: State, tid: TaskId, found: Option<ApprovalId>)
    requires QueryStep(s, tid, found).Some?
    ensures Course(s, Query(tid, found), QueryStep(s, tid, found).value, tid)
  {
    hide QueryAnswer;
  }

  lemma RecordCourse(s: State, tid: TaskId, tool: string, now: int)
    requires RecordStep(s, tid, tool, now).Some?
    ensures Course(s, Record(tid, tool, now), RecordStep(s, tid, tool, now).value, tid)
  {
    LeaveGoes(s, tid);
    hide Finish;
  }

  lemma LeavesCourse(s: State, tid: TaskId)
    ensures LinkedStep(s, tid).Some? ==> Course(s, Linked(tid), LinkedStep(s, tid).value, tid)
    ensures AbortStep(s, tid).Some? ==> Course(s, Abort(tid), AbortStep(s, tid).value, tid)
  {
    if tid in s.tasks {
      LeaveGoes(s, tid);
    }
    hide AbortTask, Finish;
  }

  lemma RunnerCourse(s: State, step: Step, u: State, tid: TaskId)
    requires Next(s, step) == Some(u) && TaskOf(step) == Some(tid) && tid in s.tasks
    requires step.Launched? || step.Exited? || step.TimedOut? || step.Reaped? || step.Failed?
    ensures Course(s, step, u, tid)
  {
    hide Course, LaunchedStep, ExitedStep, TimedOutStep, ReapedStep, FailedStep;
    match step
    case Launched(_, proc) => LaunchedCourse(s, tid, proc);
    case Exited(_, chunks, now) => ExitedCourse(s, tid, chunks, now);
    case TimedOut(_) => TimedOutCourse(s, tid);
    case Reaped(_) => ReapedCourse(s, tid);
    case Failed(_) => FailedCourse(s, tid);
  }

  lemma NoChore(s: State, step: Step, tid: TaskId)
    requires Next(s, step).Some? && TaskOf(step) == Some(tid) && tid in s.tasks && !Chore(s.tasks[tid].phase)
    ensures !step.Dispatch? && !step.Route? && !step.CancelPoll?
  {
  }

  lemma TurnCourse(s: State, step: Step, u: State, tid: TaskId)
    requires Next(s, step) == Some(u) && TaskOf(step) == Some(tid) && tid in s.tasks && !Chore(s.tasks[tid].phase)
    ensures Course(s, step, u, tid)
  {
    NoChore(s, step, tid);
    hide Course, Chore, PostedStep, AcquireStep, RegisteredStep, LaunchedStep, ExitedStep, TimedOutStep, ReapedStep,
         FailedStep, QueryStep, RecordStep, LinkedStep, AbortStep, RouteStep, DispatchStep, CancelStep;
    match step
    case Posted(_, event, now) => PostedCourse(s, tid, event, now);
    case Registered(_) => RegisteredCourse(s, tid);
    case Acquire(_, wall, id) => AcquireCourse(s, tid, wall, id);
    case Query(_, found) => QueryCourse(s, tid, found);
    case Record(_, tool, now) => RecordCourse(s, tid, tool, now);
    case Linked(_) => LeavesCourse(s, tid);
    case Abort(_) => LeavesCourse(s, tid);
    case _ => RunnerCourse(s, step, u, tid);
  }

  // ----- Over a run -----

  // The task is there from state m to state n, so no restart comes in between.
  ghost predicate Lives(states: seq<State>, m: nat, n: nat, tid: TaskId)
    requires n < |states|
  {
    forall k | m <= k <= n :: tid in states[k].tasks
  }

  // The starts of claude by steps of this task between states m and n.
  ghost function LaunchedBy(states: seq<State>, steps: seq<Step>, m: nat, n: nat, tid: TaskId): seq<Launch>
    requires |states| == |steps| + 1 && m <= n < |states|
    decreases n
  {
    if m == n then []
    else
      LaunchedBy(states, steps, m, n - 1, tid) +
      if TaskOf(steps[n - 1]) == Some(tid) then More(states[n - 1].h.launches, states[n].h.launches) else []
  }

  // The posts by steps of this task between states m and n.
  ghost function PostedBy(states: seq<State>, steps: seq<Step>, m: nat, n: nat, tid: TaskId): seq<Post>
    requires |states| == |steps| + 1 && m <= n < |states|
    decreases n
  {
    if m == n then []
    else
      PostedBy(states, steps, m, n - 1, tid) +
      if TaskOf(steps[n - 1]) == Some(tid) then More(states[n - 1].h.posts, states[n].h.posts) else []
  }

  // What a longer list has more.
  function More<T>(xs: seq<T>, ys: seq<T>): seq<T> {
    if |xs| <= |ys| then ys[|xs|..] else []
  }

  lemma MoreIs<T>(xs: seq<T>, more: seq<T>)
    ensures More(xs, xs + more) == more
  {
  }

  // The step before state n, seen from one task that lives on: it is left alone,
  // or takes its course.
  lemma LastStep(states: seq<State>, steps: seq<Step>, n: nat, tid: TaskId)
    requires Run(states, steps) && 0 < n < |states|
    requires tid in states[n - 1].tasks && tid in states[n].tasks && !Chore(states[n - 1].tasks[tid].phase)
    ensures if TaskOf(steps[n - 1]) == Some(tid) then Course(states[n - 1], steps[n - 1], states[n], tid)
            else states[n].tasks[tid] == states[n - 1].tasks[tid]
  {
    LockInvAlways(states, steps, n - 1);
    hide LockInv, Next, Course;
    if TaskOf(steps[n - 1]) == Some(tid) {
      TurnCourse(states[n - 1], steps[n - 1], states[n], tid);
    } else {
      NotACrash(states[n - 1], steps[n - 1], states[n], tid);
      OtherTasksStay(states[n - 1], steps[n - 1], states[n], tid);
    }
  }

  lemma NotACrash(s: State, step: Step, s': State, tid: TaskId)
    requires Next(s, step) == Some(s') && tid in s'.tasks
    ensures !step.Crash?
  {
  }

  // The phases before claude is started.
  predicate Coming(p: Phase) {
    p.Acking? || p.Registering? || p.Waiting? || p.Declining? || p.SpawnAcking? || p.SpawnRegistering?
  }

  // What the task is by state n, and what it has started since state m.
  ghost predicate OneStart(states: seq<State>, steps: seq<Step>, m: nat, n: nat, tid: TaskId, a: Task, b: Task)
    requires m <= n < |states| == |steps| + 1
  {
    && !Chore(b.phase) && b == a.(phase := b.phase, session := b.session)
    && (a.origin != Spawned ==> b.session == a.session)
    && LaunchedBy(states, steps, m, n, tid) ==
       if Coming(b.phase) then [] else [Launch(Turn(a.room, a.root, b.session), a.origin)]
  }

  // A turn starts claude exactly once, in its room and thread and with its session.
  lemma {:induction false} StartsOnce(states: seq<State>, steps: seq<Step>, m: nat, n: nat, tid: TaskId)
    requires Run(states, steps) && m <= n < |states| && Lives(states, m, n, tid)
    requires Coming(states[m].tasks[tid].phase)
    ensures OneStart(states, steps, m, n, tid, states[m].tasks[tid], states[n].tasks[tid])
    decreases n
  {
    hide Next, Init;
    if m < n {
      Earlier(states, steps, m, n, tid);
      assert tid in states[m].tasks;
      hide Run, Lives, Coming, OneStart;
      StartsOnce(states, steps, m, n - 1, tid);
      OneStartStill(states, steps, m, n, tid, states[m].tasks[tid]);
    } else {
      ComingIsNoChore(states[m].tasks[tid].phase);
    }
  }

  lemma ComingIsNoChore(p: Phase)
    requires Coming(p)
    ensures !Chore(p)
  {
  }

  lemma OneStartStill(states: seq<State>, steps: seq<Step>, m: nat, n: nat, tid: TaskId, a: Task)
    requires Run(states, steps) && m < n < |states| && tid in states[n - 1].tasks && tid in states[n].tasks
    requires OneStart(states, steps, m, n - 1, tid, a, states[n - 1].tasks[tid])
    ensures OneStart(states, steps, m, n, tid, a, states[n].tasks[tid])
  {
    hide Next, Init, Course, Coming, Chore;
    LaunchedNext(states, steps, m, n, tid);
    LastStep(states, steps, n, tid);
    hide Run, LaunchedBy;
    if TaskOf(steps[n - 1]) == Some(tid) {
      StartsOnceStep(states[n - 1], steps[n - 1], states[n], tid);
    }
  }

  lemma Earlier(states: seq<State>, steps: seq<Step>, m: nat, n: nat, tid: TaskId)
    requires Run(states, steps) && m < n < |states| && Lives(states, m, n, tid)
    ensures Lives(states, m, n - 1, tid) && tid in states[n - 1].tasks && tid in states[n].tasks
    ensures |states| == |steps| + 1 && Next(states[n - 1], steps[n - 1]) == Some(states[n])
  {
  }

  lemma LaunchedNext(states: seq<State>, steps: seq<Step>, m: nat, n: nat, tid: TaskId)
    requires |states| == |steps| + 1 && m < n < |states|
    ensures LaunchedBy(states, steps, m, n, tid) ==
            LaunchedBy(states, steps, m, n - 1, tid) +
            if TaskOf(steps[n - 1]) == Some(tid) then More(states[n - 1].h.launches, states[n].h.launches) else []
  {
  }

  lemma PostedNext(states: seq<State>, steps: seq<Step>, m: nat, n: nat, tid: TaskId)
    requires |states| == |steps| + 1 && m < n < |states|
    ensures PostedBy(states, steps, m, n, tid) ==
            PostedBy(states, steps, m, n - 1, tid) +
            if TaskOf(steps[n - 1]) == Some(tid) then More(states[n - 1].h.posts, states[n].h.posts) else []
  {
  }

  lemma StartsOnceStep(s: State, step: Step, u: State, tid: TaskId)
    requires tid in s.tasks && tid in u.tasks && Course(s, step, u, tid)
    ensures var a, b := s.tasks[tid], u.tasks[tid];
            && !Chore(b.phase) && b == a.(phase := b.phase, session := b.session)
            && (a.origin != Spawned || !Coming(a.phase) ==> b.session == a.session)
            && (!Coming(a.phase) ==> !Coming(b.phase))
            && More(s.h.launches, u.h.launches) ==
               if Coming(a.phase) && !Coming(b.phase) then [Launch(TurnOf(b), a.origin)] else []
  {
    var a := s.tasks[tid];
    MoreIs(s.h.launches, if u.tasks[tid].phase.Launching? then [Launch(TurnOf(a), a.origin)] else []);
  }
}
