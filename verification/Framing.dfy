// What the steps of one task leave alone.
module Framing {
  import opened Prelude
  import opened Store
  import opened Dispatching

  // A step moves at most its own task.
  ghost predicate OthersStay(s: State, u: State, tid: TaskId) {
    && (forall t | t in s.tasks && t != tid :: t in u.tasks && u.tasks[t] == s.tasks[t])
    && (forall t | t in u.tasks && t != tid :: t in s.tasks)
  }

  function StartOf(p: Phase): nat
    requires Watching(p)
  {
    p.start
  }

  // The task keeps its place; what it is watching for, and on whose behalf, is as before.
  predicate Kept(a: Task, b: Task) {
    && b.room == a.room
    && (Watching(b.phase) ==>
          Watching(a.phase) && StartOf(b.phase) == StartOf(a.phase) && TurnOf(b) == TurnOf(a) && !b.phase.Queried?)
    && (a.origin.Approved? || b.origin.Approved? ==> b.origin == a.origin && TurnOf(b) == TurnOf(a))
    && (b.phase.Waiting? ==> !a.origin.Approved?)
  }

  // A pass goes on after its turn, or ends.
  predicate PassKept(s: State, u: State, tid: TaskId) {
    || u.pass == s.pass
    || (tid == RECONCILER && tid !in u.tasks &&
        (u.pass == Resting || (s.pass.Resuming? && u.pass == Acting(s.pass.todo, s.pass.states))))
  }

  // The step of task tid from s to u has nothing to do with approvals.
  ghost predicate Quiet(s: State, u: State, tid: TaskId) {
    && tid in s.tasks
    && OthersStay(s, u, tid)
    && (tid in u.tasks ==> Kept(s.tasks[tid], u.tasks[tid]))
    && u.agents == s.agents && u.registry == s.registry
    && u.approvals == s.approvals && u.clock == s.clock
    && u.db.pending == s.db.pending
    && u.h.recorded == s.h.recorded && u.h.launches == s.h.launches
    && PassKept(s, u, tid)
  }

  lemma MoveIsQuiet(s: State, tid: TaskId, b: Task, u: State)
    requires tid in s.tasks && Kept(s.tasks[tid], b)
    requires u.tasks == s.tasks[tid := b]
    requires u.agents == s.agents && u.registry == s.registry && u.approvals == s.approvals && u.clock == s.clock
    requires u.db.pending == s.db.pending && u.pass == s.pass
    requires u.h.recorded == s.h.recorded && u.h.launches == s.h.launches
    ensures Quiet(s, u, tid)
  {
  }

  lemma LeaveIsQuiet(s: State, tid: TaskId)
    requires tid in s.tasks
    ensures Quiet(s, Finish(s, tid), tid) && Quiet(s, AbortTask(s, tid), tid)
  {
    hide Unlocked;
  }

  // From a state that differs in sessions, aliases and posts only.
  lemma QuietFrom(s: State, v: State, u: State, tid: TaskId)
    requires v.tasks == s.tasks && v.agents == s.agents && v.registry == s.registry
    requires v.approvals == s.approvals && v.clock == s.clock && v.db.pending == s.db.pending && v.pass == s.pass
    requires v.h.recorded == s.h.recorded && v.h.launches == s.h.launches
    requires Quiet(v, u, tid)
    ensures Quiet(s, u, tid)
  {
  }

  lemma InPhaseIsQuiet(s: State, tid: TaskId, p: Phase)
    requires tid in s.tasks && Kept(s.tasks[tid], s.tasks[tid].(phase := p))
    ensures Quiet(s, InPhase(s, tid, p), tid)
  {
    MoveIsQuiet(s, tid, s.tasks[tid].(phase := p), InPhase(s, tid, p));
  }

  lemma AliasKeepsPending(t: Tables, event: EventId, root: EventId)
    requires RegisterAlias(t, event, root).Ok?
    ensures RegisterAlias(t, event, root).value == t.(aliases := RegisterAlias(t, event, root).value.aliases)
  {
  }

  lemma AliasThenIsQuiet(s: State, tid: TaskId, event: EventId, root: EventId, p: Phase)
    requires tid in s.tasks && Kept(s.tasks[tid], s.tasks[tid].(phase := p))
    ensures Quiet(s, AliasThen(s, tid, event, root, p), tid)
  {
    hide Quiet, Kept, Finish, AbortTask;
    match RegisterAlias(s.db, event, root)
    case Ok(t) =>
      AliasKeepsPending(s.db, event, root);
      InPhaseIsQuiet(s.(db := t), tid, p);
      QuietFrom(s, s.(db := t), InPhase(s.(db := t), tid, p), tid);
    case Err(_) => LeaveIsQuiet(s, tid);
  }

  lemma AliasFinishIsQuiet(s: State, tid: TaskId, event: EventId, root: EventId)
    requires tid in s.tasks
    ensures Quiet(s, AliasFinish(s, tid, event, root), tid)
  {
    hide Quiet, Kept, Finish, AbortTask;
    match RegisterAlias(s.db, event, root)
    case Ok(t) =>
      AliasKeepsPending(s.db, event, root);
      LeaveIsQuiet(s.(db := t), tid);
      QuietFrom(s, s.(db := t), Finish(s.(db := t), tid), tid);
    case Err(_) => LeaveIsQuiet(s, tid);
  }

  lemma SpawnAckedIsQuiet(s: State, tid: TaskId, event: EventId, agent: AgentName, now: int)
    requires tid in s.tasks && s.tasks[tid].phase.SpawnAcking?
    ensures Quiet(s, SpawnAcked(s, tid, event, agent, now), tid)
  {
    hide Quiet, AliasThen, AbortTask;
    var task := s.tasks[tid];
    match InsertSession(s.db, task.root, task.room, agent, task.session, now)
    case Err(_) => LeaveIsQuiet(s, tid);
    case Ok(t) =>
      AliasThenIsQuiet(s.(db := t), tid, event, task.root, SpawnRegistering);
      QuietFrom(s, s.(db := t), AliasThen(s.(db := t), tid, event, task.root, SpawnRegistering), tid);
  }

  lemma MirrorIsQuiet(s: State, tid: TaskId, m: Message, pick: Option<SessionId>, now: int)
    requires tid in s.tasks && s.tasks[tid].phase == Routing(m) && s.tasks[tid].room == m.room &&
             s.tasks[tid].origin == Utility
    requires MirrorStep(s, tid, m, pick, now).Some?
    ensures Quiet(s, MirrorStep(s, tid, m, pick, now).value, tid)
  {
    hide Quiet, AbortTask, Unmirrored;
    match pick
    case None => InPhaseIsQuiet(s, tid, Noting(1));
    case Some(id) =>
      match InsertSession(s.db, m.id, m.room, s.agents[m.room], id, now)
      case Err(_) => LeaveIsQuiet(s, tid);
      case Ok(t) =>
        MoveIsQuiet(s, tid, Task(m.room, m.id, id, Utility, Mirroring), MirrorStep(s, tid, m, pick, now).value);
  }

  lemma CommandIsQuiet(s: State, tid: TaskId, pick: Option<SessionId>, items: seq<Listed>, posts: nat, now: int)
    requires RouteStep(s, tid, pick, items, posts, now).Some?
    requires s.tasks[tid].phase.message.room == s.tasks[tid].room && s.tasks[tid].origin == Utility
    requires s.tasks[tid].phase.message.trusted && s.tasks[tid].phase.message.threadRoot.None?
    ensures Quiet(s, RouteStep(s, tid, pick, items, posts, now).value, tid)
  {
    hide Quiet, RowsOfRoom, MirrorStep;
    var m := s.tasks[tid].phase.message;
    match m.command
    case NoCommand =>
      var b := Task(m.room, m.id, "", Spawned, Waiting);
      MoveIsQuiet(s, tid, b, s.(tasks := s.tasks[tid := b]));
    case MirrorCommand => MirrorIsQuiet(s, tid, m, pick, now);
    case SessionsCommand => InPhaseIsQuiet(s, tid, if items == [] then Noting(1) else Heading(items));
    case CancelCommand => InPhaseIsQuiet(s, tid, Cancelling);
    case OtherCommand => InPhaseIsQuiet(s, tid, Noting(posts));
  }

  lemma RouteIsQuiet(s: State, tid: TaskId, pick: Option<SessionId>, items: seq<Listed>, posts: nat, now: int)
    requires RouteStep(s, tid, pick, items, posts, now).Some?
    requires s.tasks[tid].phase.message.room == s.tasks[tid].room && s.tasks[tid].origin == Utility
    ensures Quiet(s, RouteStep(s, tid, pick, items, posts, now).value, tid)
  {
    hide Quiet, RowsOfRoom, MirrorStep, Finish;
    var m := s.tasks[tid].phase.message;
    if !m.trusted {
      LeaveIsQuiet(s, tid);
    } else if m.threadRoot.None? {
      CommandIsQuiet(s, tid, pick, items, posts, now);
    } else {
      match GetSessionByEvent(s.db, m.threadRoot.value)
      case Some(found) =>
        var b := Task(m.room, found.0, found.1.id, Replied, Acking);
        MoveIsQuiet(s, tid, b, s.(tasks := s.tasks[tid := b]));
      case None =>
        LeaveIsQuiet(s, tid);
        InPhaseIsQuiet(s, tid, Noting(1));
    }
  }

  lemma PostedIsQuiet(s: State, tid: TaskId, event: EventId, now: int)
    requires PostedStep(s, tid, event, now).Some?
    ensures Quiet(s, PostedStep(s, tid, event, now).value, tid)
  {
    hide Quiet, AliasThen, AliasFinish, SpawnAcked, Finish;
    var task := s.tasks[tid];
    var u := Logged(s, PostOf(task, event));
    match task.phase {
      case Acking => AliasThenIsQuiet(u, tid, event, task.root, Registering);
      case SpawnAcking => SpawnAckedIsQuiet(u, tid, event, s.agents[task.room], now);
      case Warning => AliasFinishIsQuiet(u, tid, event, task.root);
      case Posting(start, left) =>
        AliasThenIsQuiet(u, tid, event, task.root, if left <= 1 then Querying(start) else Posting(start, left - 1));
      case MirrorAcking => AliasFinishIsQuiet(u, tid, event, task.root);
      case Heading(items) => InPhaseIsQuiet(u, tid, Enumerating(items));
      case Enumerating(items) =>
        if |items| <= 1 {
          AliasFinishIsQuiet(u, tid, event, items[0].root);
        } else {
          AliasThenIsQuiet(u, tid, event, items[0].root, Enumerating(items[1..]));
        }
      case Declining => LeaveIsQuiet(u, tid);
      case Noting(left) =>
        LeaveIsQuiet(u, tid);
        if left > 1 {
          InPhaseIsQuiet(u, tid, Noting(left - 1));
        }
      case _ =>
    }
    QuietFrom(s, u, PostedStep(s, tid, event, now).value, tid);
  }

  lemma SpawnIsQuiet(s: State, tid: TaskId, wall: real, id: SessionId)
    requires AcquireStep(s, tid, wall, id).Some? && s.tasks[tid].origin == Spawned
    ensures Quiet(s, AcquireStep(s, tid, wall, id).value, tid)
  {
    hide Quiet, FreshSession, StampsOf, LastSpawn;
    var task, u := s.tasks[tid], AcquireStep(s, tid, wall, id).value;
    var limited := wall - LastSpawn(s.lastSpawn, task.room) < RATE_LIMIT_SECONDS;
    MoveIsQuiet(s, tid, if limited then task.(phase := Declining) else task.(session := id, phase := SpawnAcking), u);
  }

  // The steps that are always quiet; the others start a turn, query or record.
  predicate IsQuietStep(s: State, step: Step) {
    match step
    case Route(_, _, _, _, _) => true
    case Posted(_, _, _) => true
    case Registered(tid) => tid in s.tasks && !s.tasks[tid].phase.SpawnRegistering?
    case Acquire(tid, _, _) => tid in s.tasks && s.tasks[tid].origin == Spawned
    case Launched(_, _) => true
    case Exited(_, _, _) => true
    case TimedOut(_) => true
    case Reaped(_) => true
    case Failed(_) => true
    case Record(tid, _, _) => tid in s.tasks && s.tasks[tid].phase.Queried? && s.tasks[tid].phase.found.None?
    case Linked(_) => true
    case CancelPoll(_, _) => true
    case Abort(_) => true
    case _ => false
  }

  lemma RunStepIsQuiet(s: State, step: Step, s': State)
    requires Next(s, step) == Some(s')
    requires step.Launched? || step.Exited? || step.TimedOut? || step.Reaped?
    ensures Quiet(s, s', step.tid)
  {
    hide Quiet;
    var tid := step.tid;
    match step
    case Launched(_, proc) => MoveIsQuiet(s, tid, s'.tasks[tid], s');
    case Exited(_, chunks, now) => MoveIsQuiet(s, tid, s'.tasks[tid], s');
    case TimedOut(_) => MoveIsQuiet(s, tid, s'.tasks[tid], s');
    case Reaped(_) => MoveIsQuiet(s, tid, s'.tasks[tid], s');
  }

  lemma FailedIsQuiet(s: State, tid: TaskId)
    requires FailedStep(s, tid).Some?
    ensures Quiet(s, FailedStep(s, tid).value, tid)
  {
    hide Quiet, AbortTask;
    LeaveIsQuiet(s, tid);
    if s.tasks[tid].origin.Approved? {
      MoveIsQuiet(s, tid, s.tasks[tid].(phase := Warning), FailedStep(s, tid).value);
    }
  }

  lemma CancelIsQuiet(s: State, tid: TaskId, giveUp: bool)
    requires CancelStep(s, tid, giveUp).Some?
    ensures Quiet(s, CancelStep(s, tid, giveUp).value, tid)
  {
    hide Quiet, Kept;
    var u, task := CancelStep(s, tid, giveUp).value, s.tasks[tid];
    StayIsQuiet(s, tid);
    assert Kept(task, task.(phase := Noting(1))) by {
      NotingIsKept(task);
    }
    if task.room in s.active || giveUp {
      MoveIsQuiet(s, tid, task.(phase := Noting(1)), u);
    }
  }

  lemma StayIsQuiet(s: State, tid: TaskId)
    requires tid in s.tasks && s.tasks[tid].phase.Cancelling?
    ensures Quiet(s, s, tid)
  {
  }

  lemma NotingIsKept(task: Task)
    ensures Kept(task, task.(phase := Noting(1)))
  {
  }

  lemma QuietStep(s: State, step: Step, s': State)
    requires Next(s, step) == Some(s') && IsQuietStep(s, step)
    requires var t := s.tasks[step.tid];
             t.phase.Routing? ==> t.phase.message.room == t.room && t.origin == Utility
    requires s.tasks[step.tid].phase.Registering? ==> s.tasks[step.tid].origin == Replied
    ensures Quiet(s, s', step.tid)
  {
    hide Quiet;
    match step
    case Route(tid, pick, items, posts, now) => RouteIsQuiet(s, tid, pick, items, posts, now);
    case Posted(tid, event, now) => PostedIsQuiet(s, tid, event, now);
    case Registered(tid) => InPhaseIsQuiet(s, tid, if s.tasks[tid].phase.Registering? then Waiting else MirrorAcking);
    case Acquire(tid, wall, id) => SpawnIsQuiet(s, tid, wall, id);
    case Failed(tid) => FailedIsQuiet(s, tid);
    case Record(tid, _, _) => LeaveIsQuiet(s, tid);
    case Linked(tid) => LeaveIsQuiet(s, tid);
    case CancelPoll(tid, giveUp) => CancelIsQuiet(s, tid, giveUp);
    case Abort(tid) => LeaveIsQuiet(s, tid);
    case _ => RunStepIsQuiet(s, step, s');
  }
}
