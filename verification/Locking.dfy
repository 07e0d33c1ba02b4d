// Whoever is inside a room's critical section owns its lock, and the process
// registered for a room belongs to that owner.
module Locking {
  import opened Prelude
  import opened Store
  import opened Dispatching
  import opened Framing

  predicate RoomOk(s: State, r: RoomId) {
    && (r in s.locks ==>
          s.locks[r] in s.tasks && s.tasks[s.locks[r]].room == r && Holding(s.tasks[s.locks[r]].phase))
    && (r in s.active ==> r in s.locks && HasProc(s.tasks[s.locks[r]].phase))
  }

  predicate TaskOk(s: State, t: TaskId)
    requires t in s.tasks
  {
    var task := s.tasks[t];
    && task.room in s.agents
    && (Holding(task.phase) ==> task.room in s.locks && s.locks[task.room] == t)
    && (HasProc(task.phase) ==> task.room in s.active && s.active[task.room] == task.phase.proc)
    && (task.origin.Approved? <==> t == RECONCILER)
    && (task.origin == Utility ==> !Holding(task.phase) && !task.phase.Waiting?)
    && (task.phase.Acking? || task.phase.Registering? ==> task.origin == Replied)
    && (task.phase.SpawnAcking? || task.phase.SpawnRegistering? || task.phase.Declining? ==> task.origin == Spawned)
    && (task.phase.Routing? ==> task.origin == Utility && task.phase.message.room == task.room)
  }

  ghost predicate LockInv(s: State) {
    && OneRoomEach(s.agents)
    && (forall r :: RoomOk(s, r))
    && (forall t | t in s.tasks :: TaskOk(s, t))
    && (RECONCILER in s.tasks <==> s.pass.Resuming?)
  }

  lemma LockInvInit(s: State)
    requires Init(s)
    ensures LockInv(s)
  {
  }

  lemma InvOk(s: State, t: TaskId, r: RoomId)
    requires LockInv(s)
    ensures t in s.tasks ==> TaskOk(s, t)
    ensures RoomOk(s, r)
    ensures RECONCILER in s.tasks <==> s.pass.Resuming?
  {
  }

  // u is s but for task tid, which is in room, and for that room's lock and process.
  ghost predicate OnlyTask(s: State, u: State, tid: TaskId, room: RoomId) {
    && u.agents == s.agents
    && (forall t | t != tid :: t in u.tasks <==> t in s.tasks)
    && (forall t | t != tid && t in s.tasks :: u.tasks[t] == s.tasks[t])
    && (tid in s.tasks ==> s.tasks[tid].room == room)
    && (tid in u.tasks ==> u.tasks[tid].room == room)
    && (forall r | r != room :: r in u.locks <==> r in s.locks)
    && (forall r | r != room && r in s.locks :: u.locks[r] == s.locks[r])
    && (forall r | r != room :: r in u.active <==> r in s.active)
    && (forall r | r != room && r in s.active :: u.active[r] == s.active[r])
  }

  // A step of one task keeps the invariant if it leaves that task and its room
  // in order, and touches the lock and the process only as the lock's owner.
  lemma OneTaskKeeps(s: State, u: State, tid: TaskId, room: RoomId)
    requires LockInv(s) && OnlyTask(s, u, tid, room)
    requires RoomOk(u, room) && (tid in u.tasks ==> TaskOk(u, tid))
    requires (u.locks == s.locks && u.active == s.active) || room !in s.locks || s.locks[room] == tid
    requires RECONCILER in u.tasks <==> u.pass.Resuming?
    ensures LockInv(u)
  {
    forall r ensures RoomOk(u, r) {
      assert RoomOk(s, r);
    }
    forall t | t in u.tasks ensures TaskOk(u, t) {
      if t != tid {
        assert TaskOk(s, t);
      }
    }
  }

  lemma FinishKeeps(s: State, tid: TaskId)
    requires LockInv(s) && tid in s.tasks && !HasProc(s.tasks[tid].phase)
    ensures LockInv(Finish(s, tid))
  {
    var room := s.tasks[tid].room;
    InvOk(s, tid, room);
    hide LockInv;
    OneTaskKeeps(s, Finish(s, tid), tid, room);
  }

  lemma AbortKeeps(s: State, tid: TaskId)
    requires LockInv(s) && tid in s.tasks
    ensures LockInv(AbortTask(s, tid))
  {
    var room := s.tasks[tid].room;
    InvOk(s, tid, room);
    hide LockInv;
    OneTaskKeeps(s, AbortTask(s, tid), tid, room);
  }

  // The task moves to another phase with the same hold on its room.
  lemma MoveKeeps(s: State, u: State, tid: TaskId)
    requires LockInv(s) && tid in s.tasks && tid in u.tasks
    requires u.tasks == s.tasks[tid := u.tasks[tid]]
    requires u.agents == s.agents && u.locks == s.locks && u.active == s.active && u.pass == s.pass
    requires u.tasks[tid].room == s.tasks[tid].room
    requires Holding(u.tasks[tid].phase) == Holding(s.tasks[tid].phase)
    requires HasProc(u.tasks[tid].phase) == HasProc(s.tasks[tid].phase)
    requires TaskOk(u, tid)
    ensures LockInv(u)
  {
    InvOk(s, tid, s.tasks[tid].room);
    hide LockInv;
    OneTaskKeeps(s, u, tid, s.tasks[tid].room);
  }

  // What the invariant does not look at.
  lemma SameLocks(s: State, u: State)
    requires LockInv(s)
    requires u.agents == s.agents && u.locks == s.locks && u.active == s.active && u.tasks == s.tasks
    requires s.pass.Resuming? == u.pass.Resuming?
    ensures LockInv(u)
  {
    forall r ensures RoomOk(u, r) {
      assert RoomOk(s, r);
    }
    forall t | t in u.tasks ensures TaskOk(u, t) {
      assert TaskOk(s, t);
    }
  }

  lemma InPhaseKeeps(s: State, tid: TaskId, p: Phase)
    requires LockInv(s) && tid in s.tasks
    requires Holding(p) == Holding(s.tasks[tid].phase)
    requires HasProc(p) == HasProc(s.tasks[tid].phase)
    requires HasProc(p) ==> p.proc == s.tasks[tid].phase.proc
    requires !p.Routing? && (p.Waiting? ==> s.tasks[tid].origin != Utility)
    requires !p.Acking? && !p.Declining? && !p.SpawnAcking?
    requires p.Registering? ==> s.tasks[tid].phase.Acking?
    requires p.SpawnRegistering? ==> s.tasks[tid].phase.SpawnAcking?
    ensures LockInv(InPhase(s, tid, p))
  {
    InvOk(s, tid, s.tasks[tid].room);
    hide LockInv;
    MoveKeeps(s, InPhase(s, tid, p), tid);
  }

  lemma AliasThenKeeps(s: State, tid: TaskId, event: EventId, root: EventId, p: Phase)
    requires LockInv(s) && tid in s.tasks
    requires Holding(p) == Holding(s.tasks[tid].phase) && !HasProc(s.tasks[tid].phase) && !HasProc(p)
    requires !p.Routing? && !p.Waiting? && !p.Acking? && !p.Declining? && !p.SpawnAcking?
    requires p.Registering? ==> s.tasks[tid].phase.Acking?
    requires p.SpawnRegistering? ==> s.tasks[tid].phase.SpawnAcking?
    ensures LockInv(AliasThen(s, tid, event, root, p))
  {
    hide LockInv;
    match RegisterAlias(s.db, event, root)
    case Ok(t) =>
      SameLocks(s, s.(db := t));
      InPhaseKeeps(s.(db := t), tid, p);
    case Err(_) => AbortKeeps(s, tid);
  }

  lemma AliasFinishKeeps(s: State, tid: TaskId, event: EventId, root: EventId)
    requires LockInv(s) && tid in s.tasks && !HasProc(s.tasks[tid].phase)
    ensures LockInv(AliasFinish(s, tid, event, root))
  {
    hide LockInv;
    match RegisterAlias(s.db, event, root)
    case Ok(t) =>
      SameLocks(s, s.(db := t));
      FinishKeeps(s.(db := t), tid);
    case Err(_) => AbortKeeps(s, tid);
  }

  lemma MirrorKeeps(s: State, tid: TaskId, m: Message, pick: Option<SessionId>, now: int)
    requires LockInv(s) && tid in s.tasks && s.tasks[tid].phase == Routing(m)
    requires MirrorStep(s, tid, m, pick, now).Some?
    ensures LockInv(MirrorStep(s, tid, m, pick, now).value)
  {
    InvOk(s, tid, m.room);
    hide LockInv, Unmirrored;
    match pick
    case None => InPhaseKeeps(s, tid, Noting(1));
    case Some(id) =>
      match InsertSession(s.db, m.id, m.room, s.agents[m.room], id, now)
      case Err(_) => AbortKeeps(s, tid);
      case Ok(t) =>
        MoveKeeps(s, s.(db := t, tasks := s.tasks[tid := Task(m.room, m.id, id, Utility, Mirroring)]), tid);
  }

  lemma CommandKeeps(s: State, tid: TaskId, pick: Option<SessionId>, items: seq<Listed>, posts: nat, now: int)
    requires LockInv(s) && RouteStep(s, tid, pick, items, posts, now).Some?
    requires s.tasks[tid].phase.message.trusted && s.tasks[tid].phase.message.threadRoot.None?
    ensures LockInv(RouteStep(s, tid, pick, items, posts, now).value)
  {
    hide MirrorStep, RowsOfRoom, GetSessionByEvent, Finish;
    var m := s.tasks[tid].phase.message;
    InvOk(s, tid, m.room);
    hide LockInv;
    match m.command
    case NoCommand => MoveKeeps(s, s.(tasks := s.tasks[tid := Task(m.room, m.id, "", Spawned, Waiting)]), tid);
    case MirrorCommand => MirrorKeeps(s, tid, m, pick, now);
    case SessionsCommand => InPhaseKeeps(s, tid, if items == [] then Noting(1) else Heading(items));
    case CancelCommand => InPhaseKeeps(s, tid, Cancelling);
    case OtherCommand => InPhaseKeeps(s, tid, Noting(posts));
  }

  lemma RouteKeeps(s: State, tid: TaskId, pick: Option<SessionId>, items: seq<Listed>, posts: nat, now: int)
    requires LockInv(s) && RouteStep(s, tid, pick, items, posts, now).Some?
    ensures LockInv(RouteStep(s, tid, pick, items, posts, now).value)
  {
    var m := s.tasks[tid].phase.message;
    InvOk(s, tid, m.room);
    hide LockInv, RowsOfRoom;
    if !m.trusted {
      FinishKeeps(s, tid);
    } else if m.threadRoot.None? {
      CommandKeeps(s, tid, pick, items, posts, now);
    } else {
      match GetSessionByEvent(s.db, m.threadRoot.value)
      case Some(found) =>
        MoveKeeps(s, s.(tasks := s.tasks[tid := Task(m.room, found.0, found.1.id, Replied, Acking)]), tid);
      case None =>
        if posts == 0 {
          FinishKeeps(s, tid);
        } else {
          InPhaseKeeps(s, tid, Noting(1));
        }
    }
  }

  lemma PostedKeeps(s: State, tid: TaskId, event: EventId, now: int)
    requires LockInv(s) && PostedStep(s, tid, event, now).Some?
    ensures LockInv(PostedStep(s, tid, event, now).value)
  {
    hide LockInv;
    var task := s.tasks[tid];
    var u := Logged(s, PostOf(task, event));
    SameLocks(s, u);
    match task.phase
    case Acking => AliasThenKeeps(u, tid, event, task.root, Registering);
    case SpawnAcking => SpawnAckedKeeps(u, tid, event, s.agents[task.room], now);
    case Warning => AliasFinishKeeps(u, tid, event, task.root);
    case Posting(start, left) =>
      AliasThenKeeps(u, tid, event, task.root, if left <= 1 then Querying(start) else Posting(start, left - 1));
    case MirrorAcking => AliasFinishKeeps(u, tid, event, task.root);
    case Heading(items) => InPhaseKeeps(u, tid, Enumerating(items));
    case Enumerating(items) =>
      if |items| <= 1 {
        AliasFinishKeeps(u, tid, event, items[0].root);
      } else {
        AliasThenKeeps(u, tid, event, items[0].root, Enumerating(items[1..]));
      }
    case Declining => FinishKeeps(u, tid);
    case Noting(left) =>
      if left <= 1 {
        FinishKeeps(u, tid);
      } else {
        InPhaseKeeps(u, tid, Noting(left - 1));
      }
    case _ =>
  }

  lemma SpawnAckedKeeps(s: State, tid: TaskId, event: EventId, agent: AgentName, now: int)
    requires LockInv(s) && tid in s.tasks && s.tasks[tid].phase.SpawnAcking?
    ensures LockInv(SpawnAcked(s, tid, event, agent, now))
  {
    hide LockInv;
    var task := s.tasks[tid];
    match InsertSession(s.db, task.root, task.room, agent, task.session, now)
    case Err(_) => AbortKeeps(s, tid);
    case Ok(t) =>
      SameLocks(s, s.(db := t));
      AliasThenKeeps(s.(db := t), tid, event, task.root, SpawnRegistering);
  }

  // The lock is taken.
  lemma EnterKeeps(s: State, u: State, tid: TaskId)
    requires LockInv(s) && tid in s.tasks && tid in u.tasks && u.tasks == s.tasks[tid := u.tasks[tid]]
    requires s.tasks[tid].room !in s.locks && u.locks == s.locks[s.tasks[tid].room := tid]
    requires u.agents == s.agents && u.active == s.active && u.pass == s.pass
    requires u.tasks[tid].room == s.tasks[tid].room && Holding(u.tasks[tid].phase) && !HasProc(u.tasks[tid].phase)
    requires TaskOk(u, tid)
    ensures LockInv(u)
  {
    InvOk(s, tid, s.tasks[tid].room);
    hide LockInv;
    OneTaskKeeps(s, u, tid, s.tasks[tid].room);
  }

  lemma SpawnKeeps(s: State, tid: TaskId, wall: real, id: SessionId)
    requires LockInv(s) && AcquireStep(s, tid, wall, id).Some? && s.tasks[tid].origin == Spawned
    ensures LockInv(AcquireStep(s, tid, wall, id).value)
  {
    InvOk(s, tid, s.tasks[tid].room);
    hide LockInv, FreshSession, StampsOf, LastSpawn;
    var task, u := s.tasks[tid], AcquireStep(s, tid, wall, id).value;
    var limited := wall - LastSpawn(s.lastSpawn, task.room) < RATE_LIMIT_SECONDS;
    assert u.tasks[tid] == if limited then task.(phase := Declining) else task.(session := id, phase := SpawnAcking);
    EnterKeeps(s, u, tid);
  }

  lemma AcquireKeeps(s: State, tid: TaskId, wall: real, id: SessionId)
    requires LockInv(s) && AcquireStep(s, tid, wall, id).Some?
    ensures LockInv(AcquireStep(s, tid, wall, id).value)
  {
    InvOk(s, tid, s.tasks[tid].room);
    hide LockInv, FreshSession, StampsOf, LastSpawn;
    if s.tasks[tid].origin == Spawned {
      SpawnKeeps(s, tid, wall, id);
    } else {
      EnterKeeps(s, StartTurn(s.(locks := s.locks[s.tasks[tid].room := tid]), tid), tid);
    }
  }

  // The process entry appears, or goes, while the task holds the lock.
  lemma ProcessKeeps(s: State, u: State, tid: TaskId)
    requires LockInv(s) && tid in s.tasks && tid in u.tasks && u.tasks == s.tasks[tid := u.tasks[tid]]
    requires u.agents == s.agents && u.locks == s.locks && u.pass == s.pass
    requires u.tasks[tid] == s.tasks[tid].(phase := u.tasks[tid].phase) && !u.tasks[tid].phase.Routing?
    requires Watching(s.tasks[tid].phase) || HasProc(s.tasks[tid].phase)
    requires Watching(u.tasks[tid].phase) || HasProc(u.tasks[tid].phase) || u.tasks[tid].phase.Warning?
    requires u.active == if HasProc(u.tasks[tid].phase) then s.active[s.tasks[tid].room := u.tasks[tid].phase.proc]
                         else s.active - {s.tasks[tid].room}
    ensures LockInv(u)
  {
    InvOk(s, tid, s.tasks[tid].room);
    hide LockInv;
    OneTaskKeeps(s, u, tid, s.tasks[tid].room);
  }

  lemma RegisteredKeeps(s: State, tid: TaskId)
    requires LockInv(s) && RegisteredStep(s, tid).Some?
    ensures LockInv(RegisteredStep(s, tid).value)
  {
    InvOk(s, tid, s.tasks[tid].room);
    hide LockInv;
    match s.tasks[tid].phase
    case Registering => InPhaseKeeps(s, tid, Waiting);
    case SpawnRegistering => MoveKeeps(s, StartTurn(s, tid), tid);
    case Mirroring => InPhaseKeeps(s, tid, MirrorAcking);
    case _ =>
  }

  lemma LaunchedKeeps(s: State, tid: TaskId, proc: Proc)
    requires LockInv(s) && LaunchedStep(s, tid, proc).Some?
    ensures LockInv(LaunchedStep(s, tid, proc).value)
  {
    hide LockInv;
    ProcessKeeps(s, LaunchedStep(s, tid, proc).value, tid);
  }

  lemma ExitedKeeps(s: State, tid: TaskId, chunks: nat, now: int)
    requires LockInv(s) && ExitedStep(s, tid, chunks, now).Some?
    ensures LockInv(ExitedStep(s, tid, chunks, now).value)
  {
    hide LockInv, TouchSession;
    ProcessKeeps(s, ExitedStep(s, tid, chunks, now).value, tid);
  }

  lemma TimedOutKeeps(s: State, tid: TaskId)
    requires LockInv(s) && TimedOutStep(s, tid).Some?
    ensures LockInv(TimedOutStep(s, tid).value)
  {
    hide LockInv;
    InPhaseKeeps(s, tid, Reaping(s.tasks[tid].phase.proc));
  }

  lemma ReapedKeeps(s: State, tid: TaskId)
    requires LockInv(s) && ReapedStep(s, tid).Some?
    ensures LockInv(ReapedStep(s, tid).value)
  {
    hide LockInv;
    ProcessKeeps(s, ReapedStep(s, tid).value, tid);
  }

  lemma FailedKeeps(s: State, tid: TaskId)
    requires LockInv(s) && FailedStep(s, tid).Some?
    ensures LockInv(FailedStep(s, tid).value)
  {
    hide LockInv;
    if !s.tasks[tid].origin.Approved? {
      AbortKeeps(s, tid);
    } else if s.tasks[tid].phase.Launching? {
      InPhaseKeeps(s, tid, Warning);
    } else {
      ProcessKeeps(s, FailedStep(s, tid).value, tid);
    }
  }

  lemma RecordKeeps(s: State, tid: TaskId, tool: string, now: int)
    requires LockInv(s) && RecordStep(s, tid, tool, now).Some?
    ensures LockInv(RecordStep(s, tid, tool, now).value)
  {
    InvOk(s, tid, s.tasks[tid].room);
    hide LockInv;
    match s.tasks[tid].phase.found
    case None => FinishKeeps(s, tid);
    case Some(a) => MoveKeeps(s, RecordStep(s, tid, tool, now).value, tid);
  }

  lemma CancelKeeps(s: State, tid: TaskId, giveUp: bool)
    requires LockInv(s) && CancelStep(s, tid, giveUp).Some?
    ensures LockInv(CancelStep(s, tid, giveUp).value)
  {
    InvOk(s, tid, s.tasks[tid].room);
    hide LockInv;
    if s.tasks[tid].room in s.active || giveUp {
      MoveKeeps(s, CancelStep(s, tid, giveUp).value, tid);
    }
  }

  lemma DispatchKeeps(s: State, tid: TaskId, m: Message)
    requires LockInv(s) && DispatchStep(s, tid, m).Some?
    ensures LockInv(DispatchStep(s, tid, m).value)
  {
    InvOk(s, tid, m.room);
    hide LockInv;
    OneTaskKeeps(s, DispatchStep(s, tid, m).value, tid, m.room);
  }

  lemma ComeKeeps(s: State, u: State, tid: TaskId)
    requires LockInv(s) && tid !in s.tasks && tid in u.tasks && u.tasks == s.tasks[tid := u.tasks[tid]]
    requires u.agents == s.agents && u.locks == s.locks && u.active == s.active
    requires !Holding(u.tasks[tid].phase) && TaskOk(u, tid)
    requires RECONCILER in u.tasks <==> u.pass.Resuming?
    ensures LockInv(u)
  {
    InvOk(s, tid, u.tasks[tid].room);
    hide LockInv;
    OneTaskKeeps(s, u, tid, u.tasks[tid].room);
  }

  lemma ClaimKeeps(s: State, row: Pending, rest: seq<Pending>, states: map<ApprovalId, ApprovalState>)
    requires LockInv(s) && RECONCILER !in s.tasks && row.room in s.agents
    ensures LockInv(Claim(s, row, rest, states))
  {
    hide LockInv, DeletePending;
    ComeKeeps(s, Claim(s, row, rest, states), RECONCILER);
  }

  lemma UnclaimedKeeps(s: State, row: Pending, rest: seq<Pending>, states: map<ApprovalId, ApprovalState>)
    requires LockInv(s) && !s.pass.Resuming?
    ensures LockInv(Drop(s, row, rest, states)) && LockInv(Deny(s, row, rest, states))
    ensures LockInv(s.(pass := Acting(rest, states))) && LockInv(s.(pass := Resting))
  {
    hide LockInv, DeletePending;
    SameLocks(s, Drop(s, row, rest, states));
    SameLocks(s, Deny(s, row, rest, states));
    SameLocks(s, s.(pass := Acting(rest, states)));
    SameLocks(s, s.(pass := Resting));
  }

  lemma PassActKeeps(s: State)
    requires LockInv(s) && PassActStep(s).Some?
    ensures LockInv(PassActStep(s).value)
  {
    hide LockInv, Decided, Claim, Drop, Deny;
    if s.pass.todo == [] {
      UnclaimedKeeps(s, Pending("", "", "", "", "", 0), [], map[]);
    } else {
      var row, rest, states := s.pass.todo[0], s.pass.todo[1..], s.pass.states;
      UnclaimedKeeps(s, row, rest, states);
      if Decided(row, states, ApprovedApproval) && row.room in s.agents {
        ClaimKeeps(s, row, rest, states);
      }
    }
  }

  lemma LoggedMovesNothing(s: State, post: Post)
    ensures var u := Logged(s, post);
            && u == s.(h := u.h)
            && u.h.recorded == s.h.recorded && u.h.launches == s.h.launches && u.h.dispatched == s.h.dispatched
            && u.h.stamps == s.h.stamps && u.h.signals == s.h.signals
  {
  }

  // The note about a denial is posted; only aliases, posts and the pass change.
  lemma DenyPostedMovesNothing(s: State, event: EventId)
    requires DenyPostedStep(s, event).Some?
    ensures var u := DenyPostedStep(s, event).value;
            && u == s.(h := u.h, db := s.db.(aliases := u.db.aliases), pass := u.pass)
            && u.h.recorded == s.h.recorded && u.h.launches == s.h.launches && u.h.dispatched == s.h.dispatched
            && u.h.stamps == s.h.stamps && u.h.signals == s.h.signals
            && (u.pass == Resting || u.pass == Acting(s.pass.todo, s.pass.states))
  {
    hide RegisterAlias, FreshEvent, Logged;
    LoggedMovesNothing(s, RefusalOf(s.pass.row, event));
    match RegisterAlias(s.db, event, s.pass.row.root)
    case Ok(t) => AliasKeepsPending(s.db, event, s.pass.row.root);
    case Err(_) =>
  }

  lemma DenyPostedKeeps(s: State, event: EventId)
    requires LockInv(s) && DenyPostedStep(s, event).Some?
    ensures LockInv(DenyPostedStep(s, event).value)
  {
    DenyPostedMovesNothing(s, event);
    hide LockInv, DenyPostedStep;
    SameLocks(s, DenyPostedStep(s, event).value);
  }

  // The steps that move no task.
  predicate IsOuterStep(step: Step) {
    || step.PassBegin? || step.PassFetched? || step.PassAbort?
    || step.Clean? || step.Raise? || step.Settle? || step.Transcript?
  }

  lemma OuterStepsMoveNoTask(s: State, step: Step, s': State)
    requires IsOuterStep(step) && Next(s, step) == Some(s')
    ensures s'.agents == s.agents && s'.locks == s.locks && s'.active == s.active && s'.tasks == s.tasks
    ensures s.pass.Resuming? == s'.pass.Resuming?
  {
    hide Listing, Live, WithoutExpired, StatesAnswer, Cleanup, Watcher, RunnerIn;
  }

  // Every step keeps the invariant.
  lemma LockInvStep(s: State, step: Step, s': State)
    requires LockInv(s) && Next(s, step) == Some(s')
    ensures LockInv(s')
  {
    hide LockInv, DispatchStep, RouteStep, PostedStep, RegisteredStep, AcquireStep, LaunchedStep, ExitedStep,
         TimedOutStep, ReapedStep, FailedStep, RecordStep, CancelStep, PassBeginStep, PassFetchedStep, PassActStep,
         DenyPostedStep, PassAbortStep, CrashStep, RaiseStep, SettleStep, TranscriptStep;
    match step
    case Dispatch(tid, m) => DispatchKeeps(s, tid, m);
    case Route(tid, pick, items, posts, now) => RouteKeeps(s, tid, pick, items, posts, now);
    case Posted(tid, event, now) => PostedKeeps(s, tid, event, now);
    case Registered(tid) => RegisteredKeeps(s, tid);
    case Acquire(tid, wall, id) => AcquireKeeps(s, tid, wall, id);
    case Launched(tid, proc) => LaunchedKeeps(s, tid, proc);
    case Exited(tid, chunks, now) => ExitedKeeps(s, tid, chunks, now);
    case TimedOut(tid) => TimedOutKeeps(s, tid);
    case Reaped(tid) => ReapedKeeps(s, tid);
    case Failed(tid) => FailedKeeps(s, tid);
    case Query(tid, found) => InPhaseKeeps(s, tid, Queried(s.tasks[tid].phase.start, found));
    case Record(tid, tool, now) => RecordKeeps(s, tid, tool, now);
    case Linked(tid) => FinishKeeps(s, tid);
    case CancelPoll(tid, giveUp) => CancelKeeps(s, tid, giveUp);
    case Abort(tid) => AbortKeeps(s, tid);
    case PassAct => PassActKeeps(s);
    case DenyPosted(event) => DenyPostedKeeps(s, event);
    case Crash(agents, registry) => CrashKeeps(s, agents, registry);
    case _ =>
      OuterStepsMoveNoTask(s, step, s');
      SameLocks(s, s');
  }

  lemma CrashKeeps(s: State, agents: map<RoomId, AgentName>, registry: bool)
    requires CrashStep(s, agents, registry).Some?
    ensures LockInv(CrashStep(s, agents, registry).value)
  {
  }

  // In every reachable state.
  lemma {:induction false} LockInvAlways(states: seq<State>, steps: seq<Step>, n: nat)
    requires Run(states, steps) && n < |states|
    ensures LockInv(states[n])
  {
    if n == 0 {
      LockInvInit(states[0]);
    } else {
      LockInvAlways(states, steps, n - 1);
      LockInvStep(states[n - 1], steps[n - 1], states[n]);
    }
  }

  // At most one turn of a room is in its critical section.
  lemma MutualExclusion(states: seq<State>, steps: seq<Step>, n: nat, t: TaskId, q: TaskId)
    requires Run(states, steps) && n < |states|
    requires t in states[n].tasks && q in states[n].tasks && states[n].tasks[t].room == states[n].tasks[q].room
    requires Holding(states[n].tasks[t].phase) && Holding(states[n].tasks[q].phase)
    ensures t == q
  {
    LockInvAlways(states, steps, n);
    assert TaskOk(states[n], t) && TaskOk(states[n], q);
  }

  // A process is registered for a room exactly while the owner of the room's
  // lock is inside _run_claude, and it is that owner's process.
  lemma ActiveProcessIsOwners(states: seq<State>, steps: seq<Step>, n: nat, room: RoomId)
    requires Run(states, steps) && n < |states|
    ensures var s := states[n];
            room in s.active <==> room in s.locks && s.locks[room] in s.tasks && HasProc(s.tasks[s.locks[room]].phase)
    ensures var s := states[n];
            room in s.active ==>
              && s.tasks[s.locks[room]].room == room
              && s.active[room] == s.tasks[s.locks[room]].phase.proc
  {
    LockInvAlways(states, steps, n);
    var s := states[n];
    assert RoomOk(s, room);
    if room in s.locks {
      assert TaskOk(s, s.locks[room]);
    }
  }

  // !cancel signals the process of the turn that owns the room's lock, or nothing.
  lemma CancelSignalsTheOwner(states: seq<State>, steps: seq<Step>, n: nat)
    requires Run(states, steps) && n < |steps| && steps[n].CancelPoll? && steps[n].tid in states[n].tasks
    ensures var s, t, room := states[n], states[n + 1], states[n].tasks[steps[n].tid].room;
            if room in s.locks && s.locks[room] in s.tasks && HasProc(s.tasks[s.locks[room]].phase)
            then t.h.signals == s.h.signals + [(room, s.tasks[s.locks[room]].phase.proc)]
            else t.h.signals == s.h.signals
  {
    ActiveProcessIsOwners(states, steps, n, states[n].tasks[steps[n].tid].room);
  }

  lemma QuietSteps(s: State, step: Step, s': State)
    requires LockInv(s) && Next(s, step) == Some(s') && IsQuietStep(s, step)
    ensures Quiet(s, s', step.tid)
  {
    InvOk(s, step.tid, s.tasks[step.tid].room);
    hide LockInv, Quiet, Next;
    assert step.tid in s.tasks;
    QuietStep(s, step, s');
  }

  // The steps that start a turn, or look for and record its approval.
  lemma LoudStepsMoveOnly(s: State, step: Step, s': State)
    requires Next(s, step) == Some(s') && !IsQuietStep(s, step)
    requires step.Registered? || step.Acquire? || step.Query? || step.Record?
    ensures OthersStay(s, s', step.tid)
  {
    hide QueryAnswer, FreshSession;
    match step
    case Registered(tid) =>
    case Acquire(tid, wall, id) =>
    case Query(tid, found) =>
    case Record(tid, tool, now) =>
  }

  // With nothing left to look at, the pass is over.
  lemma PassRests(s: State)
    requires PassActStep(s).Some?
    ensures s.pass.Acting? && (s.pass.todo == [] ==> PassActStep(s) == Some(s.(pass := Resting)))
  {
  }

  // The four things a pass may do about the row it looks at.
  lemma PassActIsOneOf(s: State)
    requires PassActStep(s).Some? && s.pass.todo != []
    ensures var u, row, rest, states := PassActStep(s).value, s.pass.todo[0], s.pass.todo[1..], s.pass.states;
            || u == Claim(s, row, rest, states) || u == Drop(s, row, rest, states) || u == Deny(s, row, rest, states)
            || u == s.(pass := Acting(rest, states))
  {
    hide Claim, Drop, Deny, Decided;
  }

  // A pass starts the reconciler's task, if there is none; a dispatch starts another.
  lemma PassActAdds(s: State)
    requires PassActStep(s).Some?
    ensures forall t | t in s.tasks :: t in PassActStep(s).value.tasks && PassActStep(s).value.tasks[t] == s.tasks[t]
  {
    hide Decided, Claim, Drop, Deny;
    if s.pass.todo != [] {
      PassActCases(s, s.pass.todo[0], s.pass.todo[1..], s.pass.states);
    }
  }

  lemma PassActCases(s: State, row: Pending, rest: seq<Pending>, states: map<ApprovalId, ApprovalState>)
    ensures Drop(s, row, rest, states).tasks == s.tasks && Deny(s, row, rest, states).tasks == s.tasks
    ensures Claim(s, row, rest, states).tasks ==
            s.tasks[RECONCILER := Task(row.room, row.root, row.session, Approved(row.approval), Waiting)]
  {
    hide DeletePending;
  }

  lemma PassStepsAdd(s: State, step: Step, s': State)
    requires Next(s, step) == Some(s') && (step.PassAct? || step.DenyPosted? || step.Dispatch?)
    ensures forall t | t in s.tasks :: t in s'.tasks && s'.tasks[t] == s.tasks[t]
  {
    hide PassActStep, DenyPostedStep;
    match step
    case PassAct => PassActAdds(s);
    case DenyPosted(event) => DenyPostedMovesNothing(s, event);
    case Dispatch(tid, m) =>
  }

  // Outside a restart, a task that a step does not belong to is left alone.
  lemma OtherTasksStay(s: State, step: Step, s': State, t: TaskId)
    requires LockInv(s) && Next(s, step) == Some(s') && !step.Crash? && TaskOf(step) != Some(t) && t in s.tasks
    ensures t in s'.tasks && s'.tasks[t] == s.tasks[t]
  {
    hide LockInv, Next;
    if IsQuietStep(s, step) {
      QuietSteps(s, step, s');
    } else if step.Registered? || step.Acquire? || step.Query? || step.Record? {
      LoudStepsMoveOnly(s, step, s');
    } else if IsOuterStep(step) {
      OuterStepsMoveNoTask(s, step, s');
    } else {
      PassStepsAdd(s, step, s');
    }
  }

  // A step of a task inside _run_claude, which is where that task's finally clause may run.
  predicate StepsOutOf(step: Step, tid: TaskId) {
    match step
    case Exited(t, _, _) => t == tid
    case Reaped(t) => t == tid
    case Failed(t) => t == tid
    case Abort(t) => t == tid
    case _ => false
  }

  // What a task inside _run_claude can do: time out, or leave.
  lemma StepOfRunner(s: State, step: Step, s': State, t: TaskId)
    requires Next(s, step) == Some(s') && TaskOf(step) == Some(t) && t in s.tasks && HasProc(s.tasks[t].phase)
    ensures StepsOutOf(step, t) ||
            (t in s'.tasks && HasProc(s'.tasks[t].phase) && s'.tasks[t].room == s.tasks[t].room &&
             s'.tasks[t].phase.proc == s.tasks[t].phase.proc)
  {
  }

  // A process leaves the table only by a step of the task that owns its room's
  // lock and runs it, so the finally clause never removes another turn's
  // process; only a restart clears the table.
  lemma PopRemovesOwnProcess(states: seq<State>, steps: seq<Step>, n: nat, room: RoomId)
    requires Run(states, steps) && n < |steps| && !steps[n].Crash? && room in states[n].active
    requires room !in states[n + 1].active || states[n + 1].active[room] != states[n].active[room]
    ensures var s := states[n];
            && room in s.locks && s.locks[room] in s.tasks && StepsOutOf(steps[n], s.locks[room])
            && HasProc(s.tasks[s.locks[room]].phase) && s.tasks[s.locks[room]].phase.proc == s.active[room]
  {
    ActiveProcessIsOwners(states, steps, n, room);
    var s, step, s' := states[n], steps[n], states[n + 1];
    var t := s.locks[room];
    LockInvAlways(states, steps, n + 1);
    InvOk(s', t, room);
    LockInvAlways(states, steps, n);
    hide LockInv, Next;
    if TaskOf(step) == Some(t) {
      StepOfRunner(s, step, s', t);
    } else {
      OtherTasksStay(s, step, s', t);
    }
  }
}
