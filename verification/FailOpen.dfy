// With every registry call failing, the dispatcher does what it does with no
// registry at all.
module FailOpen {
  import opened Prelude
  import opened Store
  import opened Dispatching
  import opened Framing
  import opened Locking

  function OffTables(t: Tables): Tables {
    t.(pending := map[])
  }

  // The state with everything that only the registry feature uses taken out.
  function Off(s: State): State {
    s.(registry := false, pass := Resting, db := OffTables(s.db), h := s.h.(recorded := multiset{}))
  }

  // A process that has just started.
  predicate Booted(s: State) {
    && OneRoomEach(s.agents)
    && s.locks == map[] && s.active == map[] && s.lastSpawn == map[] && s.tasks == map[] && s.pass == Resting
  }

  ghost predicate Execution(states: seq<State>, steps: seq<Step>) {
    && |states| == |steps| + 1
    && Booted(states[0])
    && forall i | 0 <= i < |steps| :: Next(states[i], steps[i]) == Some(states[i + 1])
  }

  // A step whose registry call, if it makes one, fails.
  predicate Failing(step: Step) {
    (step.Query? ==> step.found == None) && (step.PassFetched? ==> step.states == map[])
  }

  // As long as every call fails, no approval is ever found and no row acted on.
  predicate FailInv(s: State) {
    && OneRoomEach(s.agents)
    && RECONCILER !in s.tasks
    && (s.pass.Resting? || s.pass.Fetching? || (s.pass.Acting? && s.pass.states == map[]))
    && forall t | t in s.tasks && s.tasks[t].phase.Queried? :: s.tasks[t].phase.found == None
  }

  // ----- Off commutes with the statements -----

  lemma AliasOff(t: Tables, event: EventId, root: EventId)
    ensures RegisterAlias(OffTables(t), event, root) ==
            match RegisterAlias(t, event, root) case Ok(t') => Ok(OffTables(t')) case Err(e) => Err(e)
  {
  }

  lemma InsertOff(t: Tables, root: EventId, room: RoomId, agent: AgentName, id: SessionId, now: int)
    ensures InsertSession(OffTables(t), root, room, agent, id, now) ==
            match InsertSession(t, root, room, agent, id, now) case Ok(t') => Ok(OffTables(t')) case Err(e) => Err(e)
  {
  }

  lemma TouchOff(t: Tables, root: EventId, now: int)
    ensures TouchSession(OffTables(t), root, now) == OffTables(TouchSession(t, root, now))
  {
  }

  lemma CleanupOff(t: Tables, cutoff: int)
    ensures Cleanup(OffTables(t), cutoff) == OffTables(Cleanup(t, cutoff))
  {
    var a, b := DeleteStaleAliases(t, cutoff), DeleteStaleAliases(OffTables(t), cutoff);
    assert b.aliases == a.aliases;
    var pruned, offPruned := DeleteStaleSessions(a, cutoff), DeleteStaleSessions(b, cutoff);
    if pruned.Ok? {
      assert offPruned.Ok? && offPruned.value.sessions == pruned.value.sessions;
      assert SweepOrphans(offPruned.value).aliases == SweepOrphans(pruned.value).aliases;
    }
  }

  // ----- Off commutes with the moves of a task -----

  lemma InPhaseOff(s: State, tid: TaskId, p: Phase)
    requires tid in s.tasks
    ensures InPhase(Off(s), tid, p) == Off(InPhase(s, tid, p))
  {
  }

  lemma LeaveOff(s: State, tid: TaskId)
    requires tid in s.tasks && tid != RECONCILER
    ensures Finish(Off(s), tid) == Off(Finish(s, tid)) && AbortTask(Off(s), tid) == Off(AbortTask(s, tid))
  {
    assert Unlocked(Off(s), tid) == Unlocked(s, tid);
    hide Unlocked;
  }

  lemma DbOff(s: State, t: Tables)
    ensures Off(s.(db := t)) == Off(s).(db := OffTables(t))
  {
  }

  lemma LoggedOff(s: State, post: Post)
    ensures Logged(Off(s), post) == Off(Logged(s, post))
  {
  }

  lemma AliasThenOff(s: State, tid: TaskId, event: EventId, root: EventId, p: Phase)
    requires tid in s.tasks && tid != RECONCILER
    ensures AliasThen(Off(s), tid, event, root, p) == Off(AliasThen(s, tid, event, root, p))
  {
    AliasOff(s.db, event, root);
    hide RegisterAlias, InPhase, AbortTask, OffTables;
    match RegisterAlias(s.db, event, root)
    case Ok(t) => InPhaseOff(s.(db := t), tid, p); DbOff(s, t);
    case Err(_) => LeaveOff(s, tid);
  }

  lemma AliasFinishOff(s: State, tid: TaskId, event: EventId, root: EventId)
    requires tid in s.tasks && tid != RECONCILER
    ensures AliasFinish(Off(s), tid, event, root) == Off(AliasFinish(s, tid, event, root))
  {
    AliasOff(s.db, event, root);
    hide RegisterAlias, Finish, AbortTask, OffTables;
    match RegisterAlias(s.db, event, root)
    case Ok(t) => LeaveOff(s.(db := t), tid); DbOff(s, t);
    case Err(_) => LeaveOff(s, tid);
  }

  lemma StartTurnOff(s: State, tid: TaskId)
    requires tid in s.tasks
    ensures StartTurn(Off(s), tid) == Off(StartTurn(s, tid))
  {
  }

  lemma SpawnAckedOff(s: State, tid: TaskId, event: EventId, agent: AgentName, now: int)
    requires tid in s.tasks && tid != RECONCILER
    ensures SpawnAcked(Off(s), tid, event, agent, now) == Off(SpawnAcked(s, tid, event, agent, now))
  {
    var task := s.tasks[tid];
    InsertOff(s.db, task.root, task.room, agent, task.session, now);
    hide InsertSession, AliasThen, AbortTask, OffTables;
    match InsertSession(s.db, task.root, task.room, agent, task.session, now)
    case Ok(t) => AliasThenOff(s.(db := t), tid, event, task.root, SpawnRegistering); DbOff(s, t);
    case Err(_) => LeaveOff(s, tid);
  }

  // ----- Off commutes with the steps -----

  function OffStep(step: Step): Step {
    match step case Crash(agents, _) => Crash(agents, false) case _ => step
  }

  lemma DispatchOff(s: State, tid: TaskId, m: Message)
    requires DispatchStep(s, tid, m).Some?
    ensures DispatchStep(Off(s), tid, m) == Some(Off(DispatchStep(s, tid, m).value))
  {
  }

  lemma MirrorOff(s: State, tid: TaskId, m: Message, pick: Option<SessionId>, now: int)
    requires tid in s.tasks && tid != RECONCILER && MirrorStep(s, tid, m, pick, now).Some?
    ensures MirrorStep(Off(s), tid, m, pick, now) == Some(Off(MirrorStep(s, tid, m, pick, now).value))
  {
    UnmirroredOff(s, m.room, pick);
    LeaveOff(s, tid);
    InPhaseOff(s, tid, Noting(1));
    if pick.Some? {
      InsertOff(s.db, m.id, m.room, s.agents[m.room], pick.value, now);
    }
    hide Unmirrored, InsertSession, AbortTask, InPhase;
  }

  lemma UnmirroredOff(s: State, room: RoomId, pick: Option<SessionId>)
    ensures Unmirrored(Off(s), room, pick) == Unmirrored(s, room, pick)
  {
    assert forall id :: Tracked(Off(s).db, room, id) == Tracked(s.db, room, id);
  }

  lemma CommandOff(s: State, tid: TaskId, pick: Option<SessionId>, items: seq<Listed>, posts: nat, now: int)
    requires tid != RECONCILER && RouteStep(s, tid, pick, items, posts, now).Some?
    requires s.tasks[tid].phase.message.trusted && s.tasks[tid].phase.message.threadRoot.None?
    ensures RouteStep(Off(s), tid, pick, items, posts, now) ==
            Some(Off(RouteStep(s, tid, pick, items, posts, now).value))
  {
    var m := s.tasks[tid].phase.message;
    assert RowsOfRoom(Off(s).db, m.room, items) == RowsOfRoom(s.db, m.room, items);
    hide MirrorStep, InPhase, RowsOfRoom;
    match m.command
    case NoCommand =>
    case MirrorCommand => MirrorOff(s, tid, m, pick, now);
    case SessionsCommand => InPhaseOff(s, tid, if items == [] then Noting(1) else Heading(items));
    case CancelCommand => InPhaseOff(s, tid, Cancelling);
    case OtherCommand => InPhaseOff(s, tid, Noting(posts));
  }

  lemma ReplyOff(s: State, tid: TaskId, pick: Option<SessionId>, items: seq<Listed>, posts: nat, now: int)
    requires tid != RECONCILER && RouteStep(s, tid, pick, items, posts, now).Some?
    requires !s.tasks[tid].phase.message.trusted || s.tasks[tid].phase.message.threadRoot.Some?
    ensures RouteStep(Off(s), tid, pick, items, posts, now) ==
            Some(Off(RouteStep(s, tid, pick, items, posts, now).value))
  {
    var m := s.tasks[tid].phase.message;
    LeaveOff(s, tid);
    InPhaseOff(s, tid, Noting(1));
    hide Finish, InPhase, MirrorStep, RowsOfRoom, GetSessionByEvent;
    if m.trusted {
      LookupOff(s.db, m.threadRoot.value);
      match GetSessionByEvent(s.db, m.threadRoot.value)
      case Some(found) =>
      case None =>
    }
  }

  lemma LookupOff(t: Tables, event: EventId)
    ensures GetSessionByEvent(OffTables(t), event) == GetSessionByEvent(t, event)
  {
  }

  lemma RouteOff(s: State, tid: TaskId, pick: Option<SessionId>, items: seq<Listed>, posts: nat, now: int)
    requires tid != RECONCILER && RouteStep(s, tid, pick, items, posts, now).Some?
    ensures RouteStep(Off(s), tid, pick, items, posts, now) ==
            Some(Off(RouteStep(s, tid, pick, items, posts, now).value))
  {
    var m := s.tasks[tid].phase.message;
    if m.trusted && m.threadRoot.None? {
      CommandOff(s, tid, pick, items, posts, now);
    } else {
      ReplyOff(s, tid, pick, items, posts, now);
    }
  }

  lemma PostedOff(s: State, tid: TaskId, event: EventId, now: int)
    requires tid != RECONCILER && PostedStep(s, tid, event, now).Some?
    ensures PostedStep(Off(s), tid, event, now) == Some(Off(PostedStep(s, tid, event, now).value))
  {
    var task := s.tasks[tid];
    var post := PostOf(task, event);
    var u := Logged(s, post);
    LoggedOff(s, post);
    LeaveOff(u, tid);
    hide Logged, AliasThen, AliasFinish, SpawnAcked, Finish, InPhase;
    match task.phase
    case Acking => AliasThenOff(u, tid, event, task.root, Registering);
    case SpawnAcking => SpawnAckedOff(u, tid, event, s.agents[task.room], now);
    case Warning => AliasFinishOff(u, tid, event, task.root);
    case Posting(start, left) =>
      AliasThenOff(u, tid, event, task.root, if left <= 1 then Querying(start) else Posting(start, left - 1));
    case MirrorAcking => AliasFinishOff(u, tid, event, task.root);
    case Heading(items) => InPhaseOff(u, tid, Enumerating(items));
    case Enumerating(items) =>
      if |items| <= 1 {
        AliasFinishOff(u, tid, event, items[0].root);
      } else {
        AliasThenOff(u, tid, event, items[0].root, Enumerating(items[1..]));
      }
    case Noting(left) =>
      if left > 1 {
        InPhaseOff(u, tid, Noting(left - 1));
      }
    case _ =>
  }

  lemma RegisteredOff(s: State, tid: TaskId)
    requires RegisteredStep(s, tid).Some?
    ensures RegisteredStep(Off(s), tid) == Some(Off(RegisteredStep(s, tid).value))
  {
    hide StartTurn, InPhase;
    match s.tasks[tid].phase
    case Registering => InPhaseOff(s, tid, Waiting);
    case SpawnRegistering => StartTurnOff(s, tid);
    case Mirroring => InPhaseOff(s, tid, MirrorAcking);
    case _ =>
  }

  lemma AcquireOff(s: State, tid: TaskId, wall: real, id: SessionId)
    requires AcquireStep(s, tid, wall, id).Some?
    ensures AcquireStep(Off(s), tid, wall, id) == Some(Off(AcquireStep(s, tid, wall, id).value))
  {
    assert FreshSession(Off(s), id) == FreshSession(s, id);
    hide FreshSession, LastSpawn, StampsOf;
    var u := s.(locks := s.locks[s.tasks[tid].room := tid]);
    StartTurnOff(u, tid);
    InPhaseOff(u, tid, Declining);
    hide StartTurn, InPhase;
  }

  lemma ExitedOff(s: State, tid: TaskId, chunks: nat, now: int)
    requires ExitedStep(s, tid, chunks, now).Some?
    ensures ExitedStep(Off(s), tid, chunks, now) == Some(Off(ExitedStep(s, tid, chunks, now).value))
  {
    TouchOff(s.db, s.tasks[tid].root, now);
    hide TouchSession;
  }

  lemma FailedOff(s: State, tid: TaskId)
    requires tid != RECONCILER && FailedStep(s, tid).Some?
    ensures FailedStep(Off(s), tid) == Some(Off(FailedStep(s, tid).value))
  {
    LeaveOff(s, tid);
    hide AbortTask;
  }

  lemma LaunchedOff(s: State, tid: TaskId, proc: Proc)
    requires LaunchedStep(s, tid, proc).Some?
    ensures LaunchedStep(Off(s), tid, proc) == Some(Off(LaunchedStep(s, tid, proc).value))
  {
  }

  lemma ReapedOff(s: State, tid: TaskId)
    requires ReapedStep(s, tid).Some?
    ensures ReapedStep(Off(s), tid) == Some(Off(ReapedStep(s, tid).value))
  {
  }

  lemma CancelOff(s: State, tid: TaskId, giveUp: bool)
    requires CancelStep(s, tid, giveUp).Some?
    ensures CancelStep(Off(s), tid, giveUp) == Some(Off(CancelStep(s, tid, giveUp).value))
  {
    var room, u := s.tasks[tid].room, CancelStep(s, tid, giveUp).value;
    InPhaseOff(s, tid, Noting(1));
    if room in s.active {
      var signals := s.h.signals + [(room, s.active[room])];
      assert Off(u) == Off(InPhase(s, tid, Noting(1))).(h := Off(s).h.(signals := signals));
    }
  }

  // No step brings the reconciler's task, or an approval that was found.
  lemma QueryOff(s: State, tid: TaskId)
    requires QueryStep(s, tid, None).Some?
    ensures QueryStep(Off(s), tid, None) == Some(Off(QueryStep(s, tid, None).value))
  {
    InPhaseOff(s, tid, Queried(s.tasks[tid].phase.start, None));
    hide InPhase;
  }

  lemma RecordOff(s: State, tid: TaskId, tool: string, now: int)
    requires FailInv(s) && tid != RECONCILER && RecordStep(s, tid, tool, now).Some?
    ensures RecordStep(Off(s), tid, tool, now) == Some(Off(RecordStep(s, tid, tool, now).value))
  {
    LeaveOff(s, tid);
    hide Finish;
  }

  lemma TimedOutOff(s: State, tid: TaskId)
    requires TimedOutStep(s, tid).Some?
    ensures TimedOutStep(Off(s), tid) == Some(Off(TimedOutStep(s, tid).value))
  {
  }

  lemma LinkedOff(s: State, tid: TaskId)
    requires tid != RECONCILER && LinkedStep(s, tid).Some?
    ensures LinkedStep(Off(s), tid) == Some(Off(LinkedStep(s, tid).value))
  {
    LeaveOff(s, tid);
    hide Finish;
  }

  lemma AbortOff(s: State, tid: TaskId)
    requires tid != RECONCILER && AbortStep(s, tid).Some?
    ensures AbortStep(Off(s), tid) == Some(Off(AbortStep(s, tid).value))
  {
    LeaveOff(s, tid);
    hide AbortTask;
  }

  lemma HandlerStepOff(s: State, step: Step, s': State)
    requires RECONCILER !in s.tasks && Next(s, step) == Some(s')
    requires step.Dispatch? || step.Route? || step.Posted? || step.Registered? || step.Acquire? || step.Abort? ||
             step.CancelPoll?
    ensures Next(Off(s), step) == Some(Off(s'))
  {
    hide Off, DispatchStep, RouteStep, PostedStep, RegisteredStep, AcquireStep, CancelStep, AbortTask;
    match step
    case Dispatch(tid, m) => DispatchOff(s, tid, m);
    case Route(tid, pick, items, posts, now) => MovesATask(s, step, s'); RouteOff(s, tid, pick, items, posts, now);
    case Posted(tid, event, now) => MovesATask(s, step, s'); PostedOff(s, tid, event, now);
    case Registered(tid) => RegisteredOff(s, tid);
    case Acquire(tid, wall, id) => AcquireOff(s, tid, wall, id);
    case CancelPoll(tid, giveUp) => CancelOff(s, tid, giveUp);
    case Abort(tid) => AbortOff(s, tid);
  }

  lemma MovesATask(s: State, step: Step, s': State)
    requires Next(s, step) == Some(s') && (step.Route? || step.Posted?)
    ensures step.tid in s.tasks
  {
  }

  lemma TurnMovesATask(s: State, step: Step, s': State)
    requires FailInv(s) && Next(s, step) == Some(s') &&
             (step.Reaped? || step.Failed? || step.Query? || step.Record? || step.Linked?)
    ensures step.tid in s.tasks && step.tid != RECONCILER
  {
  }

  lemma TurnStepOff(s: State, step: Step, s': State)
    requires FailInv(s) && Failing(step) && Next(s, step) == Some(s')
    requires step.Launched? || step.Exited? || step.TimedOut? || step.Reaped? || step.Failed? || step.Query? ||
             step.Record? || step.Linked?
    ensures Next(Off(s), step) == Some(Off(s'))
  {
    hide Off, FailInv, LaunchedStep, ExitedStep, ReapedStep, FailedStep, QueryStep, RecordStep, LinkedStep,
         TimedOutStep;
    match step
    case Launched(tid, proc) => LaunchedOff(s, tid, proc);
    case Exited(tid, chunks, now) => ExitedOff(s, tid, chunks, now);
    case TimedOut(tid) => TimedOutOff(s, tid);
    case Reaped(tid) => TurnMovesATask(s, step, s'); ReapedOff(s, tid);
    case Failed(tid) => TurnMovesATask(s, step, s'); FailedOff(s, tid);
    case Query(tid, found) => TurnMovesATask(s, step, s'); QueryOff(s, tid);
    case Record(tid, tool, now) => TurnMovesATask(s, step, s'); RecordOff(s, tid, tool, now);
    case Linked(tid) => TurnMovesATask(s, step, s'); LinkedOff(s, tid);
  }

  lemma TranscriptOff(s: State, id: SessionId)
    requires TranscriptStep(s, id).Some?
    ensures TranscriptStep(Off(s), id) == Some(Off(TranscriptStep(s, id).value))
  {
  }

  // The configuration gives an agent one room, so it is watched in one place.
  lemma WatcherOff(s: State, agent: AgentName)
    requires OneRoomEach(s.agents)
    ensures Watcher(Off(s), agent) == Watcher(s, agent)
    ensures (exists room :: RunnerIn(Off(s), agent, room)) <==> (exists room :: RunnerIn(s, agent, room))
  {
    assert forall room :: WatcherIn(Off(s), agent, room) == WatcherIn(s, agent, room);
    assert forall room :: RunnerIn(Off(s), agent, room) == RunnerIn(s, agent, room);
    assert forall room, other | WatcherIn(s, agent, room) && WatcherIn(s, agent, other) :: room == other;
  }

  lemma RaiseOff(s: State, a: ApprovalId, agent: AgentName, own: bool)
    requires OneRoomEach(s.agents) && RaiseStep(s, a, agent, own).Some?
    ensures RaiseStep(Off(s), a, agent, own) == Some(Off(RaiseStep(s, a, agent, own).value))
  {
    WatcherOff(s, agent);
    hide Watcher, RunnerIn;
  }

  lemma CrashOff(s: State, agents: map<RoomId, AgentName>, registry: bool)
    requires CrashStep(s, agents, registry).Some?
    ensures CrashStep(Off(s), agents, false) == Some(Off(CrashStep(s, agents, registry).value))
  {
  }

  lemma SettleOff(s: State, a: ApprovalId, state: ApprovalState)
    requires SettleStep(s, a, state).Some?
    ensures SettleStep(Off(s), a, state) == Some(Off(SettleStep(s, a, state).value))
  {
  }

  lemma CleanOff(s: State, cutoff: int)
    ensures Off(s).(db := Cleanup(Off(s).db, cutoff)) == Off(s.(db := Cleanup(s.db, cutoff)))
  {
    CleanupOff(s.db, cutoff);
    hide Cleanup;
  }

  lemma WorldStepOff(s: State, step: Step, s': State)
    requires FailInv(s) && Next(s, step) == Some(s')
    requires step.Clean? || step.Crash? || step.Raise? || step.Settle? || step.Transcript?
    ensures Next(Off(s), OffStep(step)) == Some(Off(s'))
  {
    hide Off, Cleanup, CrashStep, RaiseStep, SettleStep, TranscriptStep;
    match step
    case Clean(cutoff) => CleanOff(s, cutoff);
    case Crash(agents, registry) => CrashOff(s, agents, registry);
    case Raise(a, agent, own) => RaiseOff(s, a, agent, own);
    case Settle(a, state) => SettleOff(s, a, state);
    case Transcript(id) => TranscriptOff(s, id);
  }

  // A pass that learns nothing does nothing that can be seen.
  predicate IsPassStep(step: Step) {
    step.PassBegin? || step.PassFetched? || step.PassAct? || step.DenyPosted? || step.PassAbort?
  }

  lemma SameOff(s: State, u: State)
    requires FailInv(s) && u == s.(pass := u.pass, db := s.db.(pending := u.db.pending))
    requires u.pass.Resting? || u.pass.Fetching? || (u.pass.Acting? && u.pass.states == map[])
    ensures Off(u) == Off(s) && FailInv(u)
  {
  }

  lemma PassBeginOff(s: State, rows: seq<Pending>, now: int)
    requires FailInv(s) && PassBeginStep(s, rows, now).Some?
    ensures Off(PassBeginStep(s, rows, now).value) == Off(s) && FailInv(PassBeginStep(s, rows, now).value)
  {
    hide FailInv, Off, Listing, Live, WithoutExpired;
    SameOff(s, PassBeginStep(s, rows, now).value);
  }

  lemma PassActOff(s: State)
    requires FailInv(s) && PassActStep(s).Some?
    ensures Off(PassActStep(s).value) == Off(s) && FailInv(PassActStep(s).value)
  {
    assert s.pass.states == map[];
    hide FailInv, Off, Drop, Claim, Deny;
    if s.pass.todo == [] {
      SameOff(s, s.(pass := Resting));
    } else {
      SameOff(s, s.(pass := Acting(s.pass.todo[1..], s.pass.states)));
    }
  }

  lemma PassStepOff(s: State, step: Step, s': State)
    requires FailInv(s) && Failing(step) && Next(s, step) == Some(s') && IsPassStep(step)
    ensures Off(s') == Off(s) && FailInv(s')
  {
    assert !s.pass.Denying?;
    hide FailInv, Off, PassBeginStep, PassActStep;
    match step
    case PassBegin(rows, now) => PassBeginOff(s, rows, now);
    case PassFetched(states) => SameOff(s, s');
    case PassAct => PassActOff(s);
    case PassAbort => SameOff(s, s');
  }

  lemma QuietKeepsFailInv(s: State, u: State, tid: TaskId)
    requires FailInv(s) && Quiet(s, u, tid)
    ensures FailInv(u)
  {
  }

  lemma FailInvStep(s: State, step: Step, s': State)
    requires LockInv(s) && FailInv(s) && Failing(step) && Next(s, step) == Some(s')
    ensures FailInv(s')
  {
    if IsQuietStep(s, step) {
      QuietSteps(s, step, s');
      hide LockInv, FailInv, Quiet, Next;
      QuietKeepsFailInv(s, s', step.tid);
    } else if IsPassStep(step) {
      hide LockInv, FailInv, Next;
      PassStepOff(s, step, s');
    } else {
      hide LockInv, FailInv, Next;
      LoudKeepsFailInv(s, step, s');
    }
  }

  lemma StartKeepsFailInv(s: State, tid: TaskId, locks: map<RoomId, TaskId>)
    requires FailInv(s) && tid in s.tasks
    ensures FailInv(StartTurn(s.(locks := locks), tid))
  {
  }

  lemma LoudKeepsFailInv(s: State, step: Step, s': State)
    requires FailInv(s) && Failing(step) && Next(s, step) == Some(s')
    requires !IsQuietStep(s, step) && !IsPassStep(step)
    ensures FailInv(s')
  {
    hide FreshSession, Cleanup, Watcher, RunnerIn, QueryAnswer, StartTurn;
    match step
    case Dispatch(tid, m) =>
    case Registered(tid) =>
      assert s.(locks := s.locks) == s;
      StartKeepsFailInv(s, tid, s.locks);
    case Acquire(tid, wall, id) => StartKeepsFailInv(s, tid, s.locks[s.tasks[tid].room := tid]);
    case Query(tid, found) =>
    case Record(tid, tool, now) =>
    case Clean(cutoff) =>
    case Crash(agents, registry) =>
    case Raise(a, agent, own) =>
    case Settle(a, state) =>
    case Transcript(id) =>
  }

  // ----- The theorem -----

  lemma BootedInv(s: State)
    requires Booted(s)
    ensures LockInv(s) && FailInv(s)
  {
  }

  // One step more: what the run without a registry does in its place.
  lemma StepOff(s: State, step: Step, s': State)
    requires LockInv(s) && FailInv(s) && Failing(step) && Next(s, step) == Some(s')
    ensures LockInv(s') && FailInv(s')
    ensures if IsPassStep(step) then Off(s') == Off(s) else Next(Off(s), OffStep(step)) == Some(Off(s'))
  {
    LockInvStep(s, step, s');
    FailInvStep(s, step, s');
    assert RECONCILER !in s.tasks;
    hide LockInv, FailInv, Next, Off;
    if IsPassStep(step) {
      PassStepOff(s, step, s');
    } else if step.Clean? || step.Crash? || step.Raise? || step.Settle? || step.Transcript? {
      WorldStepOff(s, step, s');
    } else if step.Dispatch? || step.Route? || step.Posted? || step.Registered? || step.Acquire? || step.Abort? ||
              step.CancelPoll? {
      HandlerStepOff(s, step, s');
    } else {
      TurnStepOff(s, step, s');
    }
  }

  lemma {:induction false} SimulatedUpTo(states: seq<State>, steps: seq<Step>, n: nat)
    returns (states': seq<State>, steps': seq<Step>)
    requires Execution(states, steps) && n <= |steps| && forall i | 0 <= i < |steps| :: Failing(steps[i])
    ensures LockInv(states[n]) && FailInv(states[n])
    ensures Execution(states', steps') && states'[0] == Off(states[0]) && states'[|steps'|] == Off(states[n])
    ensures forall i | 0 <= i < |states'| :: !states'[i].registry
  {
    if n == 0 {
      BootedInv(states[0]);
      states', steps' := [Off(states[0])], [];
    } else {
      states', steps' := SimulatedUpTo(states, steps, n - 1);
      StepOff(states[n - 1], steps[n - 1], states[n]);
      if !IsPassStep(steps[n - 1]) {
        Extended(states', steps', OffStep(steps[n - 1]), Off(states[n]));
        states', steps' := states' + [Off(states[n])], steps' + [OffStep(steps[n - 1])];
      }
    }
  }

  lemma Extended(states: seq<State>, steps: seq<Step>, step: Step, s': State)
    requires Execution(states, steps) && Next(states[|steps|], step) == Some(s')
    ensures Execution(states + [s'], steps + [step])
  {
    hide Next, Booted;
    var longer, all := states + [s'], steps + [step];
    forall i | 0 <= i < |all| ensures Next(longer[i], all[i]) == Some(longer[i + 1]) {
      if i < |steps| {
        assert longer[i] == states[i] && longer[i + 1] == states[i + 1] && all[i] == steps[i];
      }
    }
  }

  // What people and the tables see of a run: its posts, the turns it started,
  // the sessions and the aliases.
  predicate LooksLike(s: State, u: State) {
    && s.h.posts == u.h.posts && s.h.launches == u.h.launches
    && s.db.sessions == u.db.sessions && s.db.aliases == u.db.aliases
  }

  // For every run from a restart in which all registry calls fail there is one
  // with no registry, from the same tables, that looks the same.
  lemma FailOpenIsAbsence(states: seq<State>, steps: seq<Step>)
    requires Execution(states, steps) && forall i | 0 <= i < |steps| :: Failing(steps[i])
    ensures exists states': seq<State>, steps': seq<Step> ::
              && Execution(states', steps')
              && states'[0] == Off(states[0])
              && (forall i | 0 <= i < |states'| :: !states'[i].registry)
              && LooksLike(states[|steps|], states'[|steps'|])
  {
    var states', steps' := SimulatedUpTo(states, steps, |steps|);
    hide Execution, Off;
    assert LooksLike(states[|steps|], states'[|steps'|]) by {
      OffLooksLike(states[|steps|]);
    }
  }

  lemma OffLooksLike(s: State)
    ensures LooksLike(s, Off(s))
  {
  }
}
