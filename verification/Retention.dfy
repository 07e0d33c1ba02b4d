// Which sessions are kept: a session is deleted by the first cleanup whose cutoff
// is later than its last use, and by nothing else.
module Retention {
  import opened Prelude
  import opened Store
  import opened Dispatching
  import opened Framing
  import opened Locking
  import opened Bookkeeping
  import Turns

  // ----- On the tables -----

  // The operation uses or inserts this session.
  predicate Renews(op: Op, root: EventId) {
    (op.Touch? && op.touched == root) || (op.Insert? && op.root == root)
  }

  // Cleanup keeps the session exactly if it was used at the cutoff or later.
  lemma CleanKeepsFresh(t: Tables, cutoff: int, root: EventId)
    ensures root in Cleanup(t, cutoff).sessions <==> root in t.sessions && cutoff <= t.sessions[root].lastUsedAt
    ensures root in Cleanup(t, cutoff).sessions ==> Cleanup(t, cutoff).sessions[root] == t.sessions[root]
  {
    var unlinked := DeleteStaleAliases(t, cutoff);
    assert !exists e | e in unlinked.aliases :: Stale(unlinked, unlinked.aliases[e], cutoff);
  }

  lemma OneOp(t: Tables, op: Op, root: EventId)
    requires !Renews(op, root)
    ensures root in Apply(t, op).sessions <==>
            root in t.sessions && (op.Clean? ==> op.cutoff <= t.sessions[root].lastUsedAt)
    ensures root in Apply(t, op).sessions ==> Apply(t, op).sessions[root] == t.sessions[root]
  {
    if op.Clean? {
      CleanKeepsFresh(t, op.cutoff, root);
      hide Cleanup;
    }
  }

  // No cleanup among these operations has a cutoff later than this.
  predicate CutsAtMost(ops: seq<Op>, now: int) {
    forall i | 0 <= i < |ops| && ops[i].Clean? :: ops[i].cutoff <= now
  }

  // Until it is renewed, a session stays exactly as long as no cleanup has a cutoff
  // later than its last use, and it stays as it is.
  lemma {:induction false} KeptWhileFresh(t: Tables, ops: seq<Op>, root: EventId)
    requires root in t.sessions && forall op | op in ops :: !Renews(op, root)
    ensures root in ApplyAll(t, ops).sessions <==> CutsAtMost(ops, t.sessions[root].lastUsedAt)
    ensures root in ApplyAll(t, ops).sessions ==> ApplyAll(t, ops).sessions[root] == t.sessions[root]
  {
    if ops != [] {
      var init, op := ops[..|ops| - 1], ops[|ops| - 1];
      assert ops == init + [op];
      KeptWhileFresh(t, init, root);
      OneOp(ApplyAll(t, init), op, root);
      CutsOnceMore(init, op, t.sessions[root].lastUsedAt);
      hide CutsAtMost, Apply, Renews;
    }
  }

  lemma CutsOnceMore(ops: seq<Op>, op: Op, now: int)
    ensures CutsAtMost(ops + [op], now) <==> CutsAtMost(ops, now) && (op.Clean? ==> op.cutoff <= now)
  {
    assert forall i | 0 <= i < |ops| :: (ops + [op])[i] == ops[i];
    assert (ops + [op])[|ops|] == op;
  }

  // So a session that is touched now outlives every cleanup up to now ...
  lemma TouchedIsKept(t: Tables, root: EventId, now: int, ops: seq<Op>)
    requires root in t.sessions && forall op | op in ops :: !Renews(op, root)
    ensures root in ApplyAll(TouchSession(t, root, now), ops).sessions <==> CutsAtMost(ops, now)
  {
    TouchIsNow(t, root, now);
    hide TouchSession;
    KeptWhileFresh(TouchSession(t, root, now), ops, root);
  }

  // ... and so does one that is inserted now.
  lemma InsertedIsKept(t: Tables, root: EventId, room: RoomId, agent: AgentName, id: SessionId, now: int, ops: seq<Op>)
    requires root !in t.sessions && forall op | op in ops :: !Renews(op, root)
    ensures InsertSession(t, root, room, agent, id, now).Ok?
    ensures var u := InsertSession(t, root, room, agent, id, now).value;
            && u == t.(sessions := t.sessions[root := Session(room, agent, id, now, now)])
            && (root in ApplyAll(u, ops).sessions <==> CutsAtMost(ops, now))
  {
    KeptWhileFresh(InsertSession(t, root, room, agent, id, now).value, ops, root);
  }

  // ----- In the state machine -----

  // Every row is still there, as it was.
  ghost predicate RowsStay(before: map<EventId, Session>, after: map<EventId, Session>) {
    forall r | r in before :: r in after && after[r] == before[r]
  }

  lemma AliasRowsStay(v: State, tid: TaskId, event: EventId, root: EventId, p: Phase)
    requires tid in v.tasks
    ensures AliasThen(v, tid, event, root, p).db.sessions == v.db.sessions
    ensures AliasFinish(v, tid, event, root).db.sessions == v.db.sessions
  {
    hide Unlocked;
  }

  lemma LeaveRowsStay(v: State, tid: TaskId)
    requires tid in v.tasks
    ensures Finish(v, tid).db == v.db && AbortTask(v, tid).db == v.db
  {
    hide Unlocked;
  }

  lemma SpawnRowsStay(v: State, tid: TaskId, event: EventId, agent: AgentName, now: int)
    requires tid in v.tasks
    ensures RowsStay(v.db.sessions, SpawnAcked(v, tid, event, agent, now).db.sessions)
  {
    var task := v.tasks[tid];
    hide AliasThen, AbortTask;
    LeaveRowsStay(v, tid);
    match InsertSession(v.db, task.root, task.room, agent, task.session, now)
    case Err(_) =>
    case Ok(t) => AliasRowsStay(v.(db := t), tid, event, task.root, SpawnRegistering);
  }

  lemma PostedRowsStay(s: State, tid: TaskId, event: EventId, now: int)
    requires PostedStep(s, tid, event, now).Some?
    ensures RowsStay(s.db.sessions, PostedStep(s, tid, event, now).value.db.sessions)
  {
    hide AliasThen, AliasFinish, SpawnAcked, Finish, FreshEvent;
    var a, v := s.tasks[tid], Logged(s, PostOf(s.tasks[tid], event));
    match a.phase
    case Acking => AliasRowsStay(v, tid, event, a.root, Registering);
    case SpawnAcking => SpawnRowsStay(v, tid, event, s.agents[a.room], now);
    case Posting(start, left) =>
      AliasRowsStay(v, tid, event, a.root, if left <= 1 then Querying(start) else Posting(start, left - 1));
    case Enumerating(items) => AliasRowsStay(v, tid, event, items[0].root, Enumerating(items[1..]));
    case Noting(left) => LeaveRowsStay(v, tid);
    case Declining => LeaveRowsStay(v, tid);
    case Heading(_) =>
    case _ => AliasRowsStay(v, tid, event, a.root, Linking);
  }

  lemma MirrorRowsStay(s: State, tid: TaskId, m: Message, pick: Option<SessionId>, now: int)
    requires tid in s.tasks && MirrorStep(s, tid, m, pick, now).Some?
    ensures RowsStay(s.db.sessions, MirrorStep(s, tid, m, pick, now).value.db.sessions)
  {
    hide Unmirrored, Unlocked;
  }

  lemma PhaseRowsStay(v: State, tid: TaskId, p: Phase)
    requires tid in v.tasks
    ensures InPhase(v, tid, p).db == v.db
  {
  }

  lemma RouteRowsStay(s: State, tid: TaskId, pick: Option<SessionId>, items: seq<Listed>, posts: nat, now: int)
    requires RouteStep(s, tid, pick, items, posts, now).Some?
    ensures RowsStay(s.db.sessions, RouteStep(s, tid, pick, items, posts, now).value.db.sessions)
  {
    hide MirrorStep, RowsOfRoom, Finish, InPhase, GetSessionByEvent, RowsStay;
    SameRowsStay(s.db.sessions);
    LeaveRowsStay(s, tid);
    PhaseRowsStay(s, tid, Noting(1));
    var m := s.tasks[tid].phase.message;
    if m.trusted && m.threadRoot.None? {
      match m.command
      case MirrorCommand => MirrorRowsStay(s, tid, m, pick, now);
      case SessionsCommand => PhaseRowsStay(s, tid, Heading(items));
      case CancelCommand => PhaseRowsStay(s, tid, Cancelling);
      case OtherCommand => PhaseRowsStay(s, tid, Noting(posts));
      case NoCommand =>
    }
  }

  lemma SameRowsStay(rows: map<EventId, Session>)
    ensures RowsStay(rows, rows)
  {
  }

  lemma AcquireRowsStay(s: State, tid: TaskId, wall: real, id: SessionId)
    requires AcquireStep(s, tid, wall, id).Some?
    ensures AcquireStep(s, tid, wall, id).value.db == s.db
  {
    hide FreshSession, StampsOf, LastSpawn;
  }

  lemma RegisteredRowsStay(s: State, tid: TaskId)
    requires RegisteredStep(s, tid).Some?
    ensures RegisteredStep(s, tid).value.db == s.db
  {
  }

  lemma RecordRowsStay(s: State, tid: TaskId, tool: string, now: int)
    requires RecordStep(s, tid, tool, now).Some?
    ensures RecordStep(s, tid, tool, now).value.db.sessions == s.db.sessions
  {
    LeaveRowsStay(s, tid);
    hide Finish;
  }

  lemma TurnRowsStay(s: State, step: Step, u: State)
    requires Next(s, step) == Some(u) && (step.Registered? || step.Acquire? || step.Query? || step.Record?)
    ensures u.db.sessions == s.db.sessions
  {
    hide AcquireStep, RegisteredStep, RecordStep, QueryAnswer;
    match step
    case Registered(tid) => RegisteredRowsStay(s, tid);
    case Acquire(tid, wall, id) => AcquireRowsStay(s, tid, wall, id);
    case Query(_, _) =>
    case Record(tid, tool, now) => RecordRowsStay(s, tid, tool, now);
  }

  lemma FailedRowsStay(s: State, tid: TaskId)
    requires FailedStep(s, tid).Some?
    ensures FailedStep(s, tid).value.db == s.db
  {
    LeaveRowsStay(s, tid);
    hide AbortTask;
  }

  lemma CancelRowsStay(s: State, tid: TaskId, giveUp: bool)
    requires CancelStep(s, tid, giveUp).Some?
    ensures CancelStep(s, tid, giveUp).value.db == s.db
  {
  }

  lemma RunnerRowsStay(s: State, step: Step, u: State)
    requires Next(s, step) == Some(u)
    requires step.Launched? || step.TimedOut? || step.Reaped? || step.Failed? || step.Linked? || step.CancelPoll? ||
             step.Abort?
    ensures u.db.sessions == s.db.sessions
  {
    hide FailedStep, CancelStep, Finish, AbortTask;
    match step
    case Launched(_, _) =>
    case TimedOut(_) =>
    case Reaped(_) =>
    case Failed(tid) => FailedRowsStay(s, tid);
    case Linked(tid) => LeaveRowsStay(s, tid);
    case CancelPoll(tid, giveUp) => CancelRowsStay(s, tid, giveUp);
    case Abort(tid) => LeaveRowsStay(s, tid);
  }

  lemma LoopRowsStay(s: State, step: Step, u: State)
    requires Next(s, step) == Some(u) && ((IsOuterStep(step) && !step.Clean?) || step.Dispatch? || step.Crash?)
    ensures u.db.sessions == s.db.sessions
  {
    hide StatesAnswer, Watcher, RunnerIn, Listing, Live, WithoutExpired;
  }

  lemma RestRowsStay(s: State, step: Step, u: State)
    requires Next(s, step) == Some(u) && !step.Route? && !step.Posted? && !step.Exited? && !step.Clean?
    requires !step.PassAct? && !step.DenyPosted?
    ensures u.db.sessions == s.db.sessions
  {
    hide Next;
    if step.Registered? || step.Acquire? || step.Query? || step.Record? {
      TurnRowsStay(s, step, u);
    } else if (IsOuterStep(step) && !step.Clean?) || step.Dispatch? || step.Crash? {
      LoopRowsStay(s, step, u);
    } else {
      RunnerRowsStay(s, step, u);
    }
  }

  lemma PassActRowsStay(s: State)
    requires PassActStep(s).Some?
    ensures PassActStep(s).value.db.sessions == s.db.sessions
  {
    hide PassActStep, Claim, Drop, Deny;
    PassRests(s);
    if s.pass.todo != [] {
      PassActIsOneOf(s);
      CasesRowsStay(s, s.pass.todo[0], s.pass.todo[1..], s.pass.states);
    }
  }

  lemma CasesRowsStay(s: State, row: Pending, rest: seq<Pending>, states: map<ApprovalId, ApprovalState>)
    ensures Claim(s, row, rest, states).db.sessions == s.db.sessions
    ensures Drop(s, row, rest, states).db.sessions == s.db.sessions
    ensures Deny(s, row, rest, states).db.sessions == s.db.sessions
  {
  }

  lemma StepRowsStay(s: State, step: Step, u: State)
    requires Next(s, step) == Some(u) && !step.Exited? && !step.Clean?
    ensures RowsStay(s.db.sessions, u.db.sessions)
  {
    SameRowsStay(s.db.sessions);
    hide RowsStay, RouteStep, PostedStep, PassActStep, DenyPostedStep;
    match step
    case Route(tid, pick, items, posts, now) => RouteRowsStay(s, tid, pick, items, posts, now);
    case Posted(tid, event, now) => PostedRowsStay(s, tid, event, now);
    case PassAct => PassActRowsStay(s);
    case DenyPosted(event) => DenyPostedMovesNothing(s, event);
    case _ =>
      hide Next;
      RestRowsStay(s, step, u);
  }

  lemma ExitedTouches(s: State, step: Step, u: State)
    requires Next(s, step) == Some(u) && step.Exited?
    ensures step.tid in s.tasks
    ensures var task, before := s.tasks[step.tid], s.db.sessions;
            if task.origin == Spawned || task.root !in before then u.db.sessions == before
            else
              var row := before[task.root];
              u.db.sessions == before[task.root := Session(row.room, row.agent, row.id, row.createdAt, step.now)]
  {
  }

  lemma CleanTakes(s: State, cutoff: int, r: EventId)
    requires r in s.db.sessions
    ensures var u := s.(db := Cleanup(s.db, cutoff));
            if s.db.sessions[r].lastUsedAt < cutoff then r !in u.db.sessions
            else r in u.db.sessions && u.db.sessions[r] == s.db.sessions[r]
  {
    CleanKeepsFresh(s.db, cutoff, r);
  }

  // Step by step: claude's exit renews the session of a resumed turn, to the time
  // of that step; cleanup takes exactly the sessions last used before its cutoff;
  // and no other step, restarts included, takes or changes a row.
  lemma SessionsAreKept(states: seq<State>, steps: seq<Step>, n: nat, r: EventId)
    requires Run(states, steps) && n < |steps| && r in states[n].db.sessions
    ensures var row, step, after := states[n].db.sessions[r], steps[n], states[n + 1].db.sessions;
            if step.Clean? && row.lastUsedAt < step.cutoff then r !in after
            else if step.Exited? && step.tid in states[n].tasks && states[n].tasks[step.tid].origin != Spawned
                    && states[n].tasks[step.tid].root == r then
              r in after && after[r] == Session(row.room, row.agent, row.id, row.createdAt, step.now)
            else r in after && after[r] == row
  {
    assert Next(states[n], steps[n]) == Some(states[n + 1]);
    hide Run;
    if steps[n].Clean? {
      CleanTakes(states[n], steps[n].cutoff, r);
      hide Cleanup;
    } else if steps[n].Exited? {
      hide Next;
      ExitedTouches(states[n], steps[n], states[n + 1]);
    } else {
      hide Next;
      StepRowsStay(states[n], steps[n], states[n + 1]);
    }
  }
}
