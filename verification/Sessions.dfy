// The rows of sessions over whole runs: where they come from, and that none is
// inserted twice or tracked twice in a room.
module Sessions {
  import opened Prelude
  import opened Store
  import opened Dispatching
  import opened Framing
  import opened Locking
  import opened Bookkeeping

  // A row belongs to a trusted message that is not a reply, and not a command but for !mirror.
  predicate RowOk(s: State, r: EventId) {
    r in s.db.sessions ==>
      && r in s.h.dispatched
      && s.h.dispatched[r].id == r && !InsertsNothing(s.h.dispatched[r])
      && s.db.sessions[r].room == s.h.dispatched[r].room
  }

  // A spawn or mirror that has yet to insert its row: the root is its own, and
  // the session id a spawn has drawn is nobody's.
  predicate ComingOk(s: State, t: TaskId)
    requires t in s.tasks
  {
    var task := s.tasks[t];
    BeforeInsert(task) ==>
      && task.root in s.h.dispatched && s.h.dispatched[task.root].id == task.root
      && s.h.dispatched[task.root].room == task.room
      && task.root !in s.db.sessions
      && (task.phase.Routing? ==> s.h.dispatched[task.root] == task.phase.message)
      && (!task.phase.Routing? ==> !InsertsNothing(s.h.dispatched[task.root]))
      && (task.phase.SpawnAcking? ==> task.session !in s.transcripts && Unused(s.db, task.session))
  }

  predicate Unused(t: Tables, id: SessionId) {
    forall r | r in t.sessions :: t.sessions[r].id != id
  }

  // Two of them are about different roots and different session ids.
  predicate PairOk(s: State, t: TaskId, q: TaskId)
    requires t in s.tasks && q in s.tasks
  {
    t != q && BeforeInsert(s.tasks[t]) && BeforeInsert(s.tasks[q]) ==>
      && s.tasks[t].root != s.tasks[q].root
      && (s.tasks[t].phase.SpawnAcking? && s.tasks[q].phase.SpawnAcking? ==> s.tasks[t].session != s.tasks[q].session)
  }

  predicate DistinctInRoom(sessions: map<EventId, Session>) {
    forall r, q | r in sessions && q in sessions && r != q && sessions[r].room == sessions[q].room ::
      sessions[r].id != sessions[q].id
  }

  ghost predicate SessionInv(s: State) {
    && (forall r :: RowOk(s, r))
    && (forall t | t in s.tasks :: ComingOk(s, t))
    && (forall t, q | t in s.tasks && q in s.tasks :: PairOk(s, t, q))
    && DistinctInRoom(s.db.sessions)
  }

  lemma SettlesKeepsSessions(s: State, u: State, tid: TaskId)
    requires SessionInv(s) && Settles(s, u, tid)
    ensures SessionInv(u)
  {
    hide BeforeInsert;
    forall r ensures RowOk(u, r) {
      assert RowOk(s, r);
    }
    forall t | t in u.tasks ensures ComingOk(u, t) {
      if t != tid {
        assert ComingOk(s, t);
      }
    }
    forall t, q | t in u.tasks && q in u.tasks ensures PairOk(u, t, q) {
      if t != tid && q != tid {
        assert PairOk(s, t, q);
      }
    }
  }

  lemma DispatchKeepsSessions(s: State, tid: TaskId, m: Message)
    requires SessionInv(s) && DispatchStep(s, tid, m).Some?
    ensures SessionInv(DispatchStep(s, tid, m).value)
  {
    var u := DispatchStep(s, tid, m).value;
    assert RowOk(s, m.id);
    forall r ensures RowOk(u, r) {
      assert RowOk(s, r);
    }
    forall t | t in u.tasks ensures ComingOk(u, t) {
      if t != tid {
        assert ComingOk(s, t);
      }
    }
    forall t, q | t in u.tasks && q in u.tasks ensures PairOk(u, t, q) {
      if t != tid && q != tid {
        assert PairOk(s, t, q);
      } else if t != q {
        assert ComingOk(s, if t == tid then q else t);
      }
    }
  }

  // One task goes on without inserting: it may drop out of the running, or draw
  // a fresh session id.
  lemma OneTaskKeepsSessions(s: State, u: State, tid: TaskId)
    requires SessionInv(s) && tid in s.tasks && OthersStay(s, u, tid)
    requires u.db.sessions == s.db.sessions && u.h.dispatched == s.h.dispatched && u.transcripts == s.transcripts
    requires tid in u.tasks && BeforeInsert(u.tasks[tid]) ==>
               BeforeInsert(s.tasks[tid]) && u.tasks[tid].root == s.tasks[tid].root && ComingOk(u, tid)
    requires tid in u.tasks && u.tasks[tid].phase.SpawnAcking? ==> FreshSession(s, u.tasks[tid].session)
    ensures SessionInv(u)
  {
    hide BeforeInsert;
    forall r ensures RowOk(u, r) {
      assert RowOk(s, r);
    }
    forall t | t in u.tasks ensures ComingOk(u, t) {
      if t != tid {
        assert ComingOk(s, t);
      }
    }
    forall t, q | t in u.tasks && q in u.tasks ensures PairOk(u, t, q) {
      assert PairOk(s, t, q);
    }
  }

  // A row is inserted, and its task is no longer among those about to.
  lemma InsertKeepsSessions(s: State, u: State, tid: TaskId, root: EventId, row: Session)
    requires SessionInv(s) && tid in s.tasks && BeforeInsert(s.tasks[tid]) && s.tasks[tid].root == root
    requires OthersStay(s, u, tid) && (tid in u.tasks ==> !BeforeInsert(u.tasks[tid]))
    requires u.db.sessions == s.db.sessions[root := row] && u.h.dispatched == s.h.dispatched &&
             u.transcripts == s.transcripts
    requires row.room == s.tasks[tid].room && !InsertsNothing(s.h.dispatched[root])
    requires forall r | r in s.db.sessions && s.db.sessions[r].room == row.room :: s.db.sessions[r].id != row.id
    requires forall t | t in s.tasks && t != tid && s.tasks[t].phase.SpawnAcking? && BeforeInsert(s.tasks[t]) ::
               s.tasks[t].session != row.id
    ensures SessionInv(u)
  {
    assert ComingOk(s, tid);
    hide BeforeInsert;
    forall r ensures RowOk(u, r) {
      assert RowOk(s, r);
    }
    forall t | t in u.tasks ensures ComingOk(u, t) {
      if t != tid {
        assert ComingOk(s, t) && PairOk(s, t, tid);
      }
    }
    forall t, q | t in u.tasks && q in u.tasks ensures PairOk(u, t, q) {
      if t != tid && q != tid {
        assert PairOk(s, t, q);
      }
    }
  }

  // Rows may go.
  lemma CleanKeepsSessions(s: State, cutoff: int)
    requires SessionInv(s)
    ensures SessionInv(s.(db := Cleanup(s.db, cutoff)))
  {
    var u := s.(db := Cleanup(s.db, cutoff));
    CleanupOnlyRemoves(s.db, cutoff);
    hide BeforeInsert, Cleanup;
    forall r ensures RowOk(u, r) {
      assert RowOk(s, r);
    }
    forall t | t in u.tasks ensures ComingOk(u, t) {
      assert ComingOk(s, t);
    }
    forall t, q | t in u.tasks && q in u.tasks ensures PairOk(u, t, q) {
      assert PairOk(s, t, q);
    }
  }

  lemma CleanupOnlyRemoves(t: Tables, cutoff: int)
    ensures var left := Cleanup(t, cutoff).sessions; forall r | r in left :: r in t.sessions && left[r] == t.sessions[r]
  {
  }

  lemma CrashKeepsSessions(s: State, agents: map<RoomId, AgentName>, registry: bool)
    requires SessionInv(s) && CrashStep(s, agents, registry).Some?
    ensures SessionInv(CrashStep(s, agents, registry).value)
  {
    forall r ensures RowOk(CrashStep(s, agents, registry).value, r) {
      assert RowOk(s, r);
    }
  }

  lemma TranscriptKeepsSessions(s: State, id: SessionId)
    requires SessionInv(s) && TranscriptStep(s, id).Some?
    ensures SessionInv(TranscriptStep(s, id).value)
  {
    var u := TranscriptStep(s, id).value;
    hide BeforeInsert;
    forall r ensures RowOk(u, r) {
      assert RowOk(s, r);
    }
    forall t | t in u.tasks ensures ComingOk(u, t) {
      assert ComingOk(s, t);
    }
    forall t, q | t in u.tasks && q in u.tasks ensures PairOk(u, t, q) {
      assert PairOk(s, t, q);
    }
  }

  lemma SpawnRouteKeepsSessions(s: State, tid: TaskId, m: Message)
    requires SessionInv(s) && tid in s.tasks && s.tasks[tid].phase == Routing(m) && s.tasks[tid].room == m.room
    requires !InsertsNothing(m)
    ensures SessionInv(s.(tasks := s.tasks[tid := Task(m.room, m.id, "", Spawned, Waiting)]))
  {
    assert ComingOk(s, tid);
    hide SessionInv;
    OneTaskKeepsSessions(s, s.(tasks := s.tasks[tid := Task(m.room, m.id, "", Spawned, Waiting)]), tid);
  }

  lemma LeaveKeepsSessions(s: State, tid: TaskId)
    requires SessionInv(s) && tid in s.tasks
    ensures SessionInv(AbortTask(s, tid)) && SessionInv(Finish(s, tid))
  {
    LeaveSettles(s, tid);
    hide SessionInv, Settles;
    SettlesKeepsSessions(s, AbortTask(s, tid), tid);
    SettlesKeepsSessions(s, Finish(s, tid), tid);
  }

  // A session id that a transcript bears is held by no spawn.
  lemma NotHeld(s: State, id: SessionId)
    requires SessionInv(s) && id in s.transcripts
    ensures forall t | t in s.tasks && s.tasks[t].phase.SpawnAcking? && BeforeInsert(s.tasks[t]) ::
              s.tasks[t].session != id
  {
    hide BeforeInsert;
    forall t | t in s.tasks && s.tasks[t].phase.SpawnAcking? && BeforeInsert(s.tasks[t])
      ensures s.tasks[t].session != id {
      assert ComingOk(s, t);
    }
  }

  lemma MirrorKeepsSessions(s: State, tid: TaskId, m: Message, pick: Option<SessionId>, now: int)
    requires SessionInv(s) && tid in s.tasks && s.tasks[tid].phase == Routing(m) && s.tasks[tid].room == m.room
    requires !InsertsNothing(m) && MirrorStep(s, tid, m, pick, now).Some?
    ensures SessionInv(MirrorStep(s, tid, m, pick, now).value)
  {
    assert ComingOk(s, tid);
    hide SessionInv, AbortTask, InPhase;
    match pick
    case None =>
      InPhaseSettles(s, tid, Noting(1));
      SettlesKeepsSessions(s, InPhase(s, tid, Noting(1)), tid);
    case Some(id) =>
      match InsertSession(s.db, m.id, m.room, s.agents[m.room], id, now)
      case Err(_) => LeaveKeepsSessions(s, tid);
      case Ok(t) =>
        NotHeld(s, id);
        InsertKeepsSessions(s, MirrorStep(s, tid, m, pick, now).value, tid, m.id, t.sessions[m.id]);
  }

  lemma RouteKeepsSessions(s: State, tid: TaskId, pick: Option<SessionId>, items: seq<Listed>, posts: nat, now: int)
    requires SessionInv(s) && RouteStep(s, tid, pick, items, posts, now).Some?
    requires s.tasks[tid].room == s.tasks[tid].phase.message.room
    requires Notable(s, Route(tid, pick, items, posts, now))
    ensures SessionInv(RouteStep(s, tid, pick, items, posts, now).value)
  {
    hide SessionInv, MirrorStep;
    var m := s.tasks[tid].phase.message;
    match m.command
    case NoCommand => SpawnRouteKeepsSessions(s, tid, m);
    case MirrorCommand => MirrorKeepsSessions(s, tid, m, pick, now);
  }

  lemma AliasThenKeepsRows(s: State, tid: TaskId, event: EventId, root: EventId, p: Phase)
    requires tid in s.tasks
    ensures AliasThen(s, tid, event, root, p).db.sessions == s.db.sessions
  {
    hide Unlocked;
  }

  lemma SpawnAckedKeepsSessions(s: State, tid: TaskId, event: EventId, now: int)
    requires SessionInv(s) && PostedStep(s, tid, event, now).Some? && s.tasks[tid].phase.SpawnAcking?
    requires s.tasks[tid].origin == Spawned
    ensures SessionInv(PostedStep(s, tid, event, now).value)
  {
    var task := s.tasks[tid];
    var u := Logged(s, PostOf(task, event));
    assert ComingOk(s, tid);
    OthersHoldOtherIds(s, tid);
    hide SessionInv, AliasThen, AbortTask, FreshEvent, Settles;
    match InsertSession(u.db, task.root, task.room, s.agents[task.room], task.session, now)
    case Ok(t) =>
      var v := u.(db := t);
      AliasThenSettles(v, tid, event, task.root, SpawnRegistering);
      AliasThenKeepsRows(v, tid, event, task.root, SpawnRegistering);
      AckedKeepsSessions(s, v, AliasThen(v, tid, event, task.root, SpawnRegistering), tid, t.sessions[task.root]);
  }

  lemma AckedKeepsSessions(s: State, v: State, u: State, tid: TaskId, row: Session)
    requires SessionInv(s) && tid in s.tasks && BeforeInsert(s.tasks[tid]) && s.tasks[tid].phase.SpawnAcking?
    requires v.tasks == s.tasks && v.h.dispatched == s.h.dispatched && v.transcripts == s.transcripts
    requires row.room == s.tasks[tid].room && row.id == s.tasks[tid].session
    requires v.db.sessions == s.db.sessions[s.tasks[tid].root := row] && u.db.sessions == v.db.sessions &&
             Settles(v, u, tid)
    ensures SessionInv(u)
  {
    assert ComingOk(s, tid);
    OthersHoldOtherIds(s, tid);
    hide SessionInv, BeforeInsert;
    InsertKeepsSessions(s, u, tid, s.tasks[tid].root, row);
  }

  lemma OthersHoldOtherIds(s: State, tid: TaskId)
    requires SessionInv(s) && tid in s.tasks && BeforeInsert(s.tasks[tid]) && s.tasks[tid].phase.SpawnAcking?
    ensures forall t | t in s.tasks && t != tid && s.tasks[t].phase.SpawnAcking? && BeforeInsert(s.tasks[t]) ::
              s.tasks[t].session != s.tasks[tid].session
  {
    hide BeforeInsert;
    forall t | t in s.tasks && t != tid && s.tasks[t].phase.SpawnAcking? && BeforeInsert(s.tasks[t])
      ensures s.tasks[t].session != s.tasks[tid].session
    {
      assert PairOk(s, t, tid);
    }
  }

  lemma AdmitKeepsSessions(s: State, tid: TaskId, wall: real, id: SessionId)
    requires SessionInv(s) && AcquireStep(s, tid, wall, id).Some? && Notable(s, Acquire(tid, wall, id))
    ensures SessionInv(AcquireStep(s, tid, wall, id).value)
  {
    assert ComingOk(s, tid);
    hide SessionInv, StampsOf, LastSpawn;
    OneTaskKeepsSessions(s, AcquireStep(s, tid, wall, id).value, tid);
  }

  // Every step keeps the invariant.
  lemma SessionInvStep(s: State, step: Step, s': State)
    requires LockInv(s) && SessionInv(s) && Next(s, step) == Some(s')
    ensures SessionInv(s')
  {
    if Notable(s, step) {
      if TaskOf(step).Some? && step.tid in s.tasks {
        InvOk(s, step.tid, s.tasks[step.tid].room);
      }
      hide LockInv, SessionInv, Cleanup;
      match step
      case Dispatch(tid, m) => DispatchKeepsSessions(s, tid, m);
      case Route(tid, pick, items, posts, now) => RouteKeepsSessions(s, tid, pick, items, posts, now);
      case Posted(tid, event, now) => SpawnAckedKeepsSessions(s, tid, event, now);
      case Acquire(tid, wall, id) => AdmitKeepsSessions(s, tid, wall, id);
      case Clean(cutoff) => CleanKeepsSessions(s, cutoff);
      case Crash(agents, registry) => CrashKeepsSessions(s, agents, registry);
      case Transcript(id) => TranscriptKeepsSessions(s, id);
    } else {
      hide LockInv, SessionInv, Next, Settles, Notable;
      StepSettles(s, step, s');
      SettlesKeepsSessions(s, s', Mover(step));
    }
  }

  // In every reachable state.
  lemma {:induction false} SessionInvAlways(states: seq<State>, steps: seq<Step>, n: nat)
    requires Run(states, steps) && n < |states|
    ensures SessionInv(states[n])
  {
    hide Next;
    if n > 0 {
      SessionInvAlways(states, steps, n - 1);
      LockInvAlways(states, steps, n - 1);
      hide SessionInv, LockInv;
      SessionInvStep(states[n - 1], steps[n - 1], states[n]);
    }
  }

  // No two tracked rows of a room share a session id.
  lemma SessionIdsAreDistinct(states: seq<State>, steps: seq<Step>, n: nat)
    requires Run(states, steps) && n < |states|
    ensures DistinctInRoom(states[n].db.sessions)
  {
    SessionInvAlways(states, steps, n);
  }

  // insert_session never meets a row that is there already: not when a spawn
  // has posted its acknowledgement, nor when a message is about to be mirrored.
  lemma InsertNeverCollides(states: seq<State>, steps: seq<Step>, n: nat, t: TaskId,
                            agent: AgentName, id: SessionId, now: int)
    requires Run(states, steps) && n < |states| && t in states[n].tasks
    requires states[n].tasks[t].phase.SpawnAcking? || states[n].tasks[t].phase.Routing?
    ensures var s, task := states[n], states[n].tasks[t];
            && InsertSession(s.db, task.root, task.room, agent, id, now).Ok?
            && (task.phase.Routing? ==> task.phase.message.id == task.root)
  {
    SessionInvAlways(states, steps, n);
    LockInvAlways(states, steps, n);
    assert ComingOk(states[n], t) && TaskOk(states[n], t);
  }

  // Every session was started by a trusted message of its own room that replies
  // to nothing, and is either no command or !mirror: a thread reply never starts one.
  lemma OnlyRootMessagesStartSessions(states: seq<State>, steps: seq<Step>, n: nat, root: EventId)
    requires Run(states, steps) && n < |states| && root in states[n].db.sessions
    ensures var s := states[n];
            && root in s.h.dispatched
            && var m := s.h.dispatched[root];
               && m.id == root && m.room == s.db.sessions[root].room
               && m.trusted && m.threadRoot.None? && (m.command.NoCommand? || m.command.MirrorCommand?)
  {
    SessionInvAlways(states, steps, n);
    assert RowOk(states[n], root);
  }
}
