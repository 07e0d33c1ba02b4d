// The steps that add no session, stamp, dispatch or transcript: all but a few.
module Bookkeeping {
  import opened Prelude
  import opened Store
  import opened Dispatching
  import opened Framing
  import opened Locking

  // The same rows, but for the time of last use.
  predicate SameRows(a: map<EventId, Session>, b: map<EventId, Session>) {
    && a.Keys == b.Keys
    && forall r | r in a :: b[r].room == a[r].room && b[r].id == a[r].id && b[r].agent == a[r].agent
  }

  // The step moves at most task tid, which is not about to insert a row afterwards.
  ghost predicate Settles(s: State, u: State, tid: TaskId) {
    && OthersStay(s, u, tid)
    && (tid in u.tasks ==> !BeforeInsert(u.tasks[tid]))
    && u.agents == s.agents
    && SameRows(s.db.sessions, u.db.sessions)
    && u.lastSpawn == s.lastSpawn && u.h.stamps == s.h.stamps
    && u.h.dispatched == s.h.dispatched && u.transcripts == s.transcripts
  }

  lemma LeaveSettles(s: State, tid: TaskId)
    requires tid in s.tasks
    ensures Settles(s, Finish(s, tid), tid) && Settles(s, AbortTask(s, tid), tid)
  {
    hide Unlocked;
  }

  lemma MoveSettles(s: State, u: State, tid: TaskId, b: Task)
    requires u.tasks == s.tasks[tid := b] && !BeforeInsert(b)
    requires u.agents == s.agents && SameRows(s.db.sessions, u.db.sessions) && u.transcripts == s.transcripts
    requires u.lastSpawn == s.lastSpawn && u.h.stamps == s.h.stamps && u.h.dispatched == s.h.dispatched
    ensures Settles(s, u, tid)
  {
    hide BeforeInsert;
  }

  lemma InPhaseSettles(s: State, tid: TaskId, p: Phase)
    requires tid in s.tasks && !BeforeInsert(s.tasks[tid].(phase := p))
    ensures Settles(s, InPhase(s, tid, p), tid)
  {
    hide Settles, BeforeInsert;
    MoveSettles(s, InPhase(s, tid, p), tid, s.tasks[tid].(phase := p));
  }

  // From a state that differs in aliases, pending rows and posts only.
  lemma SettlesFrom(s: State, v: State, u: State, tid: TaskId)
    requires v.tasks == s.tasks && v.agents == s.agents && v.db.sessions == s.db.sessions &&
             v.transcripts == s.transcripts
    requires v.lastSpawn == s.lastSpawn && v.h.stamps == s.h.stamps && v.h.dispatched == s.h.dispatched
    requires Settles(v, u, tid)
    ensures Settles(s, u, tid)
  {
    hide BeforeInsert;
  }

  lemma AliasThenSettles(s: State, tid: TaskId, event: EventId, root: EventId, p: Phase)
    requires tid in s.tasks && !BeforeInsert(s.tasks[tid].(phase := p))
    ensures Settles(s, AliasThen(s, tid, event, root, p), tid)
  {
    hide Settles, BeforeInsert, Finish, AbortTask;
    match RegisterAlias(s.db, event, root)
    case Ok(t) =>
      AliasKeepsPending(s.db, event, root);
      InPhaseSettles(s.(db := t), tid, p);
      SettlesFrom(s, s.(db := t), InPhase(s.(db := t), tid, p), tid);
    case Err(_) => LeaveSettles(s, tid);
  }

  lemma AliasFinishSettles(s: State, tid: TaskId, event: EventId, root: EventId)
    requires tid in s.tasks
    ensures Settles(s, AliasFinish(s, tid, event, root), tid)
  {
    hide Settles, Finish, AbortTask;
    match RegisterAlias(s.db, event, root)
    case Ok(t) =>
      AliasKeepsPending(s.db, event, root);
      LeaveSettles(s.(db := t), tid);
      SettlesFrom(s, s.(db := t), Finish(s.(db := t), tid), tid);
    case Err(_) => LeaveSettles(s, tid);
  }

  // A message that becomes neither a spawn nor a mirror.
  predicate InsertsNothing(m: Message) {
    !m.trusted || m.threadRoot.Some? || !(m.command.NoCommand? || m.command.MirrorCommand?)
  }

  // The steps that may insert a row, or stamp, dispatch or write a transcript.
  predicate Notable(s: State, step: Step) {
    match step
    case Dispatch(_, _) => true
    case Route(tid, _, _, _, _) =>
      tid in s.tasks && s.tasks[tid].phase.Routing? && !InsertsNothing(s.tasks[tid].phase.message)
    case Posted(tid, _, _) => tid in s.tasks && s.tasks[tid].phase.SpawnAcking?
    case Acquire(tid, wall, _) =>
      && tid in s.tasks && s.tasks[tid].origin == Spawned
      && wall - LastSpawn(s.lastSpawn, s.tasks[tid].room) >= RATE_LIMIT_SECONDS
    case Clean(_) => true
    case Crash(_, _) => true
    case Transcript(_) => true
    case _ => false
  }

  lemma PostedSettles(s: State, tid: TaskId, event: EventId, now: int)
    requires PostedStep(s, tid, event, now).Some? && !Notable(s, Posted(tid, event, now))
    ensures Settles(s, PostedStep(s, tid, event, now).value, tid)
  {
    hide Settles, AliasThen, AliasFinish, SpawnAcked, Finish, InPhase;
    var task := s.tasks[tid];
    var u := Logged(s, PostOf(task, event));
    match task.phase {
      case Acking => AliasThenSettles(u, tid, event, task.root, Registering);
      case Warning => AliasFinishSettles(u, tid, event, task.root);
      case Posting(start, left) =>
        AliasThenSettles(u, tid, event, task.root, if left <= 1 then Querying(start) else Posting(start, left - 1));
      case MirrorAcking => AliasFinishSettles(u, tid, event, task.root);
      case Heading(items) => InPhaseSettles(u, tid, Enumerating(items));
      case Enumerating(items) =>
        if |items| <= 1 {
          AliasFinishSettles(u, tid, event, items[0].root);
        } else {
          AliasThenSettles(u, tid, event, items[0].root, Enumerating(items[1..]));
        }
      case Declining => LeaveSettles(u, tid);
      case Noting(left) =>
        LeaveSettles(u, tid);
        if left > 1 {
          InPhaseSettles(u, tid, Noting(left - 1));
        }
      case _ =>
    }
    SettlesFrom(s, u, PostedStep(s, tid, event, now).value, tid);
  }

  lemma RouteSettles(s: State, tid: TaskId, pick: Option<SessionId>, items: seq<Listed>, posts: nat, now: int)
    requires RouteStep(s, tid, pick, items, posts, now).Some? && !Notable(s, Route(tid, pick, items, posts, now))
    ensures Settles(s, RouteStep(s, tid, pick, items, posts, now).value, tid)
  {
    hide Settles, RowsOfRoom, MirrorStep, Finish, InPhase;
    var m := s.tasks[tid].phase.message;
    LeaveSettles(s, tid);
    if m.trusted && m.threadRoot.None? {
      match m.command
      case SessionsCommand => InPhaseSettles(s, tid, if items == [] then Noting(1) else Heading(items));
      case CancelCommand => InPhaseSettles(s, tid, Cancelling);
      case OtherCommand => InPhaseSettles(s, tid, Noting(posts));
      case _ =>
    } else if m.trusted {
      match GetSessionByEvent(s.db, m.threadRoot.value)
      case Some(found) =>
        var b := Task(m.room, found.0, found.1.id, Replied, Acking);
        MoveSettles(s, s.(tasks := s.tasks[tid := b]), tid, b);
      case None => InPhaseSettles(s, tid, Noting(1));
    }
  }

  // A turn of a session that exists, or a spawn that is turned down.
  lemma AcquireSettles(s: State, tid: TaskId, wall: real, id: SessionId)
    requires AcquireStep(s, tid, wall, id).Some? && !Notable(s, Acquire(tid, wall, id))
    ensures Settles(s, AcquireStep(s, tid, wall, id).value, tid)
  {
    hide Settles, FreshSession, LastSpawn, StampsOf;
    var u := AcquireStep(s, tid, wall, id).value;
    var next := if s.tasks[tid].origin != Spawned then Launching(s.clock) else Declining;
    MoveSettles(s, u, tid, s.tasks[tid].(phase := next));
  }

  lemma TouchSameRows(t: Tables, root: EventId, now: int)
    ensures SameRows(t.sessions, TouchSession(t, root, now).sessions)
  {
  }

  lemma SameRowsRefl(a: map<EventId, Session>)
    ensures SameRows(a, a)
  {
  }

  lemma RunnerSettles(s: State, step: Step, s': State)
    requires Next(s, step) == Some(s')
    requires step.Launched? || step.Exited? || step.TimedOut? || step.Reaped?
    ensures Settles(s, s', step.tid)
  {
    hide Settles, TouchSession, SameRows;
    SameRowsRefl(s.db.sessions);
    var tid := step.tid;
    match step
    case Launched(_, _) => MoveSettles(s, s', tid, s'.tasks[tid]);
    case Exited(_, _, now) =>
      TouchSameRows(s.db, s.tasks[tid].root, now);
      MoveSettles(s, s', tid, s'.tasks[tid]);
    case TimedOut(_) => MoveSettles(s, s', tid, s'.tasks[tid]);
    case Reaped(_) => MoveSettles(s, s', tid, s'.tasks[tid]);
  }

  lemma FailedSettles(s: State, tid: TaskId)
    requires FailedStep(s, tid).Some?
    ensures Settles(s, FailedStep(s, tid).value, tid)
  {
    hide Settles, AbortTask, SameRows;
    SameRowsRefl(s.db.sessions);
    LeaveSettles(s, tid);
    if s.tasks[tid].origin.Approved? {
      MoveSettles(s, FailedStep(s, tid).value, tid, s.tasks[tid].(phase := Warning));
    }
  }

  lemma RegisteredSettles(s: State, tid: TaskId)
    requires RegisteredStep(s, tid).Some? && (s.tasks[tid].phase.Registering? ==> s.tasks[tid].origin == Replied)
    ensures Settles(s, RegisteredStep(s, tid).value, tid)
  {
    hide Settles, SameRows;
    SameRowsRefl(s.db.sessions);
    var task := s.tasks[tid];
    match task.phase
    case Registering => InPhaseSettles(s, tid, Waiting);
    case SpawnRegistering => MoveSettles(s, StartTurn(s, tid), tid, task.(phase := Launching(s.clock)));
    case Mirroring => InPhaseSettles(s, tid, MirrorAcking);
  }

  lemma RecordSettles(s: State, tid: TaskId, tool: string, now: int)
    requires RecordStep(s, tid, tool, now).Some?
    ensures Settles(s, RecordStep(s, tid, tool, now).value, tid)
  {
    hide Settles, SameRows, Finish;
    SameRowsRefl(s.db.sessions);
    LeaveSettles(s, tid);
    if s.tasks[tid].phase.found.Some? {
      MoveSettles(s, RecordStep(s, tid, tool, now).value, tid, s.tasks[tid].(phase := Linking));
    }
  }

  lemma CancelSettles(s: State, tid: TaskId, giveUp: bool)
    requires CancelStep(s, tid, giveUp).Some?
    ensures Settles(s, CancelStep(s, tid, giveUp).value, tid)
  {
    hide Settles, SameRows;
    SameRowsRefl(s.db.sessions);
    var u := CancelStep(s, tid, giveUp).value;
    assert s.tasks[tid := s.tasks[tid]] == s.tasks;
    MoveSettles(s, u, tid, u.tasks[tid]);
  }

  lemma PassActSettles(s: State)
    requires PassActStep(s).Some? && (RECONCILER in s.tasks ==> !BeforeInsert(s.tasks[RECONCILER]))
    ensures Settles(s, PassActStep(s).value, RECONCILER)
  {
    hide Settles, Decided, Claim, Drop, Deny;
    if s.pass.todo == [] {
      SameSettles(s, s.(pass := Resting), RECONCILER);
    } else {
      PassActCases(s, s.pass.todo[0], s.pass.todo[1..], s.pass.states);
    }
  }

  lemma PassActCases(s: State, row: Pending, rest: seq<Pending>, states: map<ApprovalId, ApprovalState>)
    requires RECONCILER in s.tasks ==> !BeforeInsert(s.tasks[RECONCILER])
    ensures Settles(s, Drop(s, row, rest, states), RECONCILER) && Settles(s, Deny(s, row, rest, states), RECONCILER)
    ensures Settles(s, s.(pass := Acting(rest, states)), RECONCILER) &&
            Settles(s, Claim(s, row, rest, states), RECONCILER)
  {
    hide Settles, SameRows, BeforeInsert;
    SameRowsRefl(s.db.sessions);
    SameSettles(s, Drop(s, row, rest, states), RECONCILER);
    SameSettles(s, Deny(s, row, rest, states), RECONCILER);
    SameSettles(s, s.(pass := Acting(rest, states)), RECONCILER);
    var b := Task(row.room, row.root, row.session, Approved(row.approval), Waiting);
    assert !BeforeInsert(b) by {
      NotSpawned(b);
    }
    MoveSettles(s, Claim(s, row, rest, states), RECONCILER, b);
  }

  lemma NotSpawned(b: Task)
    requires b.origin != Spawned && !b.phase.Routing?
    ensures !BeforeInsert(b)
  {
  }

  // Nothing that this module is about changes.
  ghost predicate SameBooks(s: State, u: State) {
    && u.tasks == s.tasks && u.agents == s.agents && u.db.sessions == s.db.sessions
    && u.lastSpawn == s.lastSpawn && u.h.stamps == s.h.stamps
    && u.h.dispatched == s.h.dispatched && u.transcripts == s.transcripts
  }

  lemma DenyPostedSameBooks(s: State, event: EventId)
    requires DenyPostedStep(s, event).Some?
    ensures SameBooks(s, DenyPostedStep(s, event).value)
  {
    DenyPostedMovesNothing(s, event);
    hide DenyPostedStep;
  }

  lemma PassBeginSameBooks(s: State, rows: seq<Pending>, now: int)
    requires PassBeginStep(s, rows, now).Some?
    ensures SameBooks(s, PassBeginStep(s, rows, now).value)
  {
    hide Listing, Live, WithoutExpired;
  }

  lemma RaiseSameBooks(s: State, a: ApprovalId, agent: AgentName, own: bool)
    requires RaiseStep(s, a, agent, own).Some?
    ensures SameBooks(s, RaiseStep(s, a, agent, own).value)
  {
    hide Watcher, RunnerIn;
  }

  // Steps of the reconcile loop and of the world outside.
  lemma OuterSameBooks(s: State, step: Step, s': State)
    requires Next(s, step) == Some(s')
    requires step.PassBegin? || step.PassFetched? || step.DenyPosted? || step.PassAbort? || step.Raise? || step.Settle?
    ensures SameBooks(s, s')
  {
    hide PassBeginStep, DenyPostedStep, RaiseStep, StatesAnswer;
    match step
    case PassBegin(rows, now) => PassBeginSameBooks(s, rows, now);
    case PassFetched(states) =>
    case DenyPosted(event) => DenyPostedSameBooks(s, event);
    case PassAbort =>
    case Raise(a, agent, own) => RaiseSameBooks(s, a, agent, own);
    case Settle(a, state) =>
  }

  lemma SameSettles(s: State, u: State, tid: TaskId)
    requires SameBooks(s, u) && (tid in s.tasks ==> !BeforeInsert(s.tasks[tid]))
    ensures Settles(s, u, tid)
  {
    hide BeforeInsert;
  }

  lemma OuterNotable(s: State, step: Step)
    requires step.Dispatch? || step.Clean? || step.Crash? || step.Transcript?
    ensures Notable(s, step)
  {
  }

  // The task a step is about; the reconcile loop's for the steps of no task.
  function Mover(step: Step): TaskId {
    match TaskOf(step) case Some(tid) => tid case None => RECONCILER
  }

  lemma UnremarkableSettles(s: State, step: Step, s': State)
    requires Next(s, step) == Some(s') && !Notable(s, step)
    requires TaskOf(step).Some? && s.tasks[Mover(step)].phase.Registering? ==> s.tasks[Mover(step)].origin == Replied
    requires RECONCILER in s.tasks ==> !BeforeInsert(s.tasks[RECONCILER])
    ensures Settles(s, s', Mover(step))
  {
    hide Settles, SameBooks, Notable, InPhase, Finish, AbortTask, DispatchStep, RouteStep, PostedStep, RegisteredStep,
         AcquireStep, LaunchedStep, ExitedStep, TimedOutStep, ReapedStep, FailedStep, RecordStep, CancelStep,
         PassBeginStep, PassActStep, DenyPostedStep, CrashStep, RaiseStep, SettleStep;
    match step
    case Route(tid, pick, items, posts, now) => RouteSettles(s, tid, pick, items, posts, now);
    case Posted(tid, event, now) => PostedSettles(s, tid, event, now);
    case Registered(tid) => RegisteredSettles(s, tid);
    case Acquire(tid, wall, id) => AcquireSettles(s, tid, wall, id);
    case Failed(tid) => FailedSettles(s, tid);
    case Query(tid, found) => InPhaseSettles(s, tid, Queried(s.tasks[tid].phase.start, found));
    case Record(tid, tool, now) => RecordSettles(s, tid, tool, now);
    case Linked(tid) => LeaveSettles(s, tid);
    case CancelPoll(tid, giveUp) => CancelSettles(s, tid, giveUp);
    case Abort(tid) => LeaveSettles(s, tid);
    case PassAct => PassActSettles(s);
    case Launched(_, _) => RunnerSettles(s, step, s');
    case Exited(_, _, _) => RunnerSettles(s, step, s');
    case TimedOut(_) => RunnerSettles(s, step, s');
    case Reaped(_) => RunnerSettles(s, step, s');
    case Dispatch(_, _) => OuterNotable(s, step);
    case Clean(_) => OuterNotable(s, step);
    case Crash(_, _) => OuterNotable(s, step);
    case Transcript(_) => OuterNotable(s, step);
    case _ =>
      OuterSameBooks(s, step, s');
      SameSettles(s, s', RECONCILER);
  }

  lemma StepSettles(s: State, step: Step, s': State)
    requires LockInv(s) && Next(s, step) == Some(s') && !Notable(s, step)
    ensures Settles(s, s', Mover(step))
  {
    if TaskOf(step).Some? {
      InvOk(s, Mover(step), s.tasks[Mover(step)].room);
    }
    InvOk(s, RECONCILER, "");
    hide LockInv, Next, Notable;
    UnremarkableSettles(s, step, s');
  }
}
