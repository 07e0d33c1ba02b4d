// Resume-on-approval over whole runs: every approval is recorded at most once
// and resumed at most once, and for the turn that was being watched when it came up.
module Approvals {
  import opened Prelude
  import opened Store
  import opened Dispatching
  import opened Framing
  import opened Locking

  // ----- The invariant -----

  // A turn being watched: approvals of its agent since its start came up
  // during it, and those recorded so far are older.
  predicate WatchOk(s: State, t: TaskId)
    requires t in s.tasks && s.tasks[t].room in s.agents
  {
    var task, agent := s.tasks[t], s.agents[s.tasks[t].room];
    Watching(task.phase) ==>
      && StartOf(task.phase) < s.clock
      && (forall a | a in s.approvals && s.approvals[a].agent == agent &&
                     s.approvals[a].createdAt >= StartOf(task.phase) ::
            s.approvals[a].during == Some(TurnOf(task)))
      && (forall a | a in s.approvals && s.approvals[a].agent == agent && a in s.h.recorded ::
            s.approvals[a].createdAt < StartOf(task.phase))
      && (task.phase.Queried? && task.phase.found.Some? ==>
            var a := task.phase.found.value;
            a in s.approvals && s.approvals[a].agent == agent && s.approvals[a].createdAt >= StartOf(task.phase))
  }

  predicate ApprovalOk(s: State, a: ApprovalId) {
    && s.h.recorded[a] <= 1
    && (a in s.h.recorded ==> a in s.approvals)
    && (a in s.approvals ==>
          && s.approvals[a].createdAt < s.clock
          && (s.approvals[a].raiser.Some? ==> s.approvals[a].raiser == s.approvals[a].during))
    && (a in s.db.pending ==>
          s.db.pending[a].approval == a && a in s.h.recorded && s.approvals[a].during == Some(RowTurn(s.db.pending[a])))
  }

  function Todo(pass: Pass): seq<Pending> {
    if pass.Resting? then [] else pass.todo
  }

  // What a pass has still to look at is in the table, each row once.
  predicate TodoOk(todo: seq<Pending>, pending: map<ApprovalId, Pending>) {
    && (forall i | 0 <= i < |todo| :: todo[i].approval in pending && pending[todo[i].approval] == todo[i])
    && (forall i, j | 0 <= i < j < |todo| :: todo[i].approval != todo[j].approval)
  }

  // An approval the reconciler has claimed: its row is gone.
  predicate Claimed(s: State, a: ApprovalId, turn: Turn) {
    a in s.h.recorded && a !in s.db.pending && a in s.approvals && s.approvals[a].during == Some(turn)
  }

  predicate LaunchedFor(launches: seq<Launch>, a: ApprovalId) {
    exists i | 0 <= i < |launches| :: launches[i].origin == Approved(a)
  }

  predicate ReconcilerOk(s: State) {
    RECONCILER in s.tasks && s.tasks[RECONCILER].origin.Approved? ==>
      var task := s.tasks[RECONCILER];
      && Claimed(s, task.origin.approval, TurnOf(task))
      && (task.phase.Waiting? ==> !LaunchedFor(s.h.launches, task.origin.approval))
  }

  predicate LaunchesOk(s: State) {
    && (forall i | 0 <= i < |s.h.launches| && s.h.launches[i].origin.Approved? ::
          Claimed(s, s.h.launches[i].origin.approval, s.h.launches[i].turn))
    && (forall i, j | 0 <= i < j < |s.h.launches| && s.h.launches[i].origin.Approved? ::
          s.h.launches[i].origin != s.h.launches[j].origin)
  }

  ghost predicate ApprovalInv(s: State) {
    && LockInv(s)
    && (forall t | t in s.tasks :: s.tasks[t].room in s.agents && WatchOk(s, t))
    && (forall a :: ApprovalOk(s, a))
    && TodoOk(Todo(s.pass), s.db.pending)
    && ReconcilerOk(s)
    && LaunchesOk(s)
  }

  lemma ApprovalInvInit(s: State)
    requires Init(s)
    ensures ApprovalInv(s)
  {
    LockInvInit(s);
  }

  // ----- Quiet steps -----

  lemma QuietKeepsApprovals(s: State, u: State, tid: TaskId)
    requires ApprovalInv(s) && LockInv(u) && Quiet(s, u, tid)
    ensures ApprovalInv(u)
  {
    forall t | t in u.tasks ensures u.tasks[t].room in u.agents && WatchOk(u, t) {
      assert WatchOk(s, t);
    }
    forall a ensures ApprovalOk(u, a) {
      assert ApprovalOk(s, a);
    }
  }

  // ----- Starting a turn -----

  lemma StartKeepsApprovals(s: State, tid: TaskId, locks: map<RoomId, TaskId>)
    requires ApprovalInv(s) && tid in s.tasks
    requires s.tasks[tid].phase.Waiting? || s.tasks[tid].phase.SpawnRegistering?
    requires LockInv(StartTurn(s.(locks := locks), tid))
    ensures ApprovalInv(StartTurn(s.(locks := locks), tid))
  {
    var u := StartTurn(s.(locks := locks), tid);
    InvOk(s, tid, s.tasks[tid].room);
    StartKeepsTasks(s, tid, u);
    StartKeepsLaunches(s, tid, u);
  }

  lemma StartKeepsTasks(s: State, tid: TaskId, u: State)
    requires ApprovalInv(s) && tid in s.tasks
    requires u.tasks == s.tasks[tid := s.tasks[tid].(phase := Launching(s.clock))] && u.agents == s.agents
    requires u.approvals == s.approvals && u.clock == s.clock + 1 && u.h.recorded == s.h.recorded &&
             u.db.pending == s.db.pending
    ensures forall t | t in u.tasks :: u.tasks[t].room in u.agents && WatchOk(u, t)
    ensures forall a :: ApprovalOk(u, a)
  {
    forall a | a in s.approvals ensures s.approvals[a].createdAt < s.clock {
      assert ApprovalOk(s, a);
    }
    forall t | t in u.tasks ensures u.tasks[t].room in u.agents && WatchOk(u, t) {
      assert WatchOk(s, t);
    }
    forall a ensures ApprovalOk(u, a) {
      assert ApprovalOk(s, a);
    }
  }

  lemma StartKeepsLaunches(s: State, tid: TaskId, u: State)
    requires LaunchesOk(s) && ReconcilerOk(s) && tid in s.tasks
    requires tid == RECONCILER <==> s.tasks[tid].origin.Approved?
    requires tid == RECONCILER ==> s.tasks[tid].phase.Waiting?
    requires u.tasks == s.tasks[tid := s.tasks[tid].(phase := Launching(s.clock))]
    requires u.approvals == s.approvals && u.h.recorded == s.h.recorded && u.db.pending == s.db.pending
    requires u.h.launches == s.h.launches + [Launch(TurnOf(s.tasks[tid]), s.tasks[tid].origin)]
    ensures LaunchesOk(u) && ReconcilerOk(u)
  {
    var before := s.h.launches;
    forall i | 0 <= i < |u.h.launches| && u.h.launches[i].origin.Approved?
      ensures Claimed(u, u.h.launches[i].origin.approval, u.h.launches[i].turn)
    {
      if i < |before| {
        assert u.h.launches[i] == before[i];
        assert Claimed(s, before[i].origin.approval, before[i].turn);
      }
    }
    forall i, j | 0 <= i < j < |u.h.launches| && u.h.launches[i].origin.Approved?
      ensures u.h.launches[i].origin != u.h.launches[j].origin
    {
      if j == |before| && tid == RECONCILER {
        assert before[i].origin == Approved(before[i].origin.approval);
      }
    }
  }

  // ----- Looking for an approval, and recording it -----

  lemma QueryKeepsApprovals(s: State, tid: TaskId, found: Option<ApprovalId>)
    requires ApprovalInv(s) && QueryStep(s, tid, found).Some? && LockInv(QueryStep(s, tid, found).value)
    ensures ApprovalInv(QueryStep(s, tid, found).value)
  {
    var u := QueryStep(s, tid, found).value;
    forall t | t in u.tasks ensures u.tasks[t].room in u.agents && WatchOk(u, t) {
      assert WatchOk(s, t);
    }
    forall a ensures ApprovalOk(u, a) {
      assert ApprovalOk(s, a);
    }
  }

  // The approval found was not recorded before: what has been recorded for the
  // room's agent is older than the turn.
  lemma FoundIsNew(s: State, tid: TaskId)
    requires ApprovalInv(s) && tid in s.tasks && s.tasks[tid].phase.Queried? && s.tasks[tid].phase.found.Some?
    ensures var a := s.tasks[tid].phase.found.value;
            && a in s.approvals && s.h.recorded[a] == 0 && a !in s.db.pending
            && s.approvals[a].agent == s.agents[s.tasks[tid].room]
            && s.approvals[a].during == Some(TurnOf(s.tasks[tid]))
  {
    var a := s.tasks[tid].phase.found.value;
    assert WatchOk(s, tid) && ApprovalOk(s, a);
  }

  // Nobody else is watching for the same agent's approvals.
  lemma SoleWatcher(s: State, t: TaskId, q: TaskId)
    requires LockInv(s) && t in s.tasks && q in s.tasks && Watching(s.tasks[t].phase) && Watching(s.tasks[q].phase)
    requires s.tasks[t].room in s.agents && s.tasks[q].room in s.agents
    requires s.agents[s.tasks[t].room] == s.agents[s.tasks[q].room]
    ensures t == q
  {
    assert TaskOk(s, t) && TaskOk(s, q);
  }

  lemma RecordKeepsWatch(s: State, tid: TaskId, tool: string, now: int, t: TaskId)
    requires ApprovalInv(s) && RecordStep(s, tid, tool, now).Some? && s.tasks[tid].phase.found.Some? && t in s.tasks
    requires t != tid
    ensures var u := RecordStep(s, tid, tool, now).value;
            t in u.tasks && u.tasks[t].room in u.agents && WatchOk(u, t)
  {
    FoundIsNew(s, tid);
    assert WatchOk(s, t) && WatchOk(s, tid);
    if Watching(s.tasks[t].phase) && s.agents[s.tasks[t].room] == s.agents[s.tasks[tid].room] {
      SoleWatcher(s, t, tid);
    }
    hide ApprovalInv, LockInv;
  }

  lemma RecordKeepsRows(s: State, tid: TaskId, tool: string, now: int)
    requires ApprovalInv(s) && RecordStep(s, tid, tool, now).Some? && s.tasks[tid].phase.found.Some?
    ensures forall b :: ApprovalOk(RecordStep(s, tid, tool, now).value, b)
  {
    FoundIsNew(s, tid);
    forall b ensures ApprovalOk(RecordStep(s, tid, tool, now).value, b) {
      assert ApprovalOk(s, b);
    }
  }

  lemma RecordKeepsApprovals(s: State, tid: TaskId, tool: string, now: int)
    requires ApprovalInv(s) && RecordStep(s, tid, tool, now).Some? && s.tasks[tid].phase.found.Some?
    requires LockInv(RecordStep(s, tid, tool, now).value)
    ensures ApprovalInv(RecordStep(s, tid, tool, now).value)
  {
    var u := RecordStep(s, tid, tool, now).value;
    FoundIsNew(s, tid);
    RecordKeepsRows(s, tid, tool, now);
    forall t | t in u.tasks ensures u.tasks[t].room in u.agents && WatchOk(u, t) {
      if t != tid {
        RecordKeepsWatch(s, tid, tool, now, t);
      } else {
        assert WatchOk(s, tid);
      }
    }
    hide LockInv, WatchOk, ApprovalOk;
  }

  // ----- Approvals coming up and being settled -----

  // A turn that is being watched is the watcher of its agent.
  lemma WatcherIsUnique(s: State, t: TaskId)
    requires LockInv(s) && t in s.tasks && Watching(s.tasks[t].phase) && s.tasks[t].room in s.agents
    ensures Watcher(s, s.agents[s.tasks[t].room]) == Some(TurnOf(s.tasks[t]))
  {
    assert TaskOk(s, t);
    assert WatcherIn(s, s.agents[s.tasks[t].room], s.tasks[t].room);
  }

  lemma RaiseKeepsApprovals(s: State, a: ApprovalId, agent: AgentName, own: bool)
    requires ApprovalInv(s) && RaiseStep(s, a, agent, own).Some? && LockInv(RaiseStep(s, a, agent, own).value)
    ensures ApprovalInv(RaiseStep(s, a, agent, own).value)
  {
    hide Watcher;
    var u := RaiseStep(s, a, agent, own).value;
    assert ApprovalOk(s, a);
    forall t | t in u.tasks ensures u.tasks[t].room in u.agents && WatchOk(u, t) {
      assert WatchOk(s, t);
      if Watching(s.tasks[t].phase) && s.agents[s.tasks[t].room] == agent {
        WatcherIsUnique(s, t);
      }
    }
    forall b ensures ApprovalOk(u, b) {
      assert ApprovalOk(s, b);
    }
  }

  lemma SettleKeepsApprovals(s: State, a: ApprovalId, state: ApprovalState)
    requires ApprovalInv(s) && SettleStep(s, a, state).Some? && LockInv(SettleStep(s, a, state).value)
    ensures ApprovalInv(SettleStep(s, a, state).value)
  {
    var u := SettleStep(s, a, state).value;
    forall t | t in u.tasks ensures u.tasks[t].room in u.agents && WatchOk(u, t) {
      assert WatchOk(s, t);
    }
    forall b ensures ApprovalOk(u, b) {
      assert ApprovalOk(s, b);
    }
  }

  // ----- The reconcile loop -----

  lemma {:induction false} LiveRows(rows: seq<Pending>, now: int)
    ensures forall r | r in Live(rows, now) :: r in rows && !Expired(r, now)
    ensures forall r | r in rows && !Expired(r, now) :: r in Live(rows, now)
  {
    if rows != [] {
      LiveRows(rows[1..], now);
    }
  }

  predicate DistinctRows(rows: seq<Pending>) {
    forall i, j | 0 <= i < j < |rows| :: rows[i].approval != rows[j].approval
  }

  lemma {:induction false} LiveDistinct(rows: seq<Pending>, now: int)
    requires DistinctRows(rows)
    ensures DistinctRows(Live(rows, now))
  {
    if rows != [] {
      var rest := Live(rows[1..], now);
      LiveDistinct(rows[1..], now);
      LiveRows(rows[1..], now);
      if Expired(rows[0], now) {
        assert Live(rows, now) == rest;
      } else {
        assert Live(rows, now) == [rows[0]] + rest;
        forall r | r in rest ensures r.approval != rows[0].approval {
          var k :| 0 <= k < |rows[1..]| && rows[1..][k] == r;
          assert rows[k + 1] == r;
        }
      }
    }
  }

  lemma LiveTodoOk(rows: seq<Pending>, pending: map<ApprovalId, Pending>, now: int)
    requires Listing(rows, pending)
    ensures TodoOk(Live(rows, now), WithoutExpired(pending, now)) && TodoOk([], WithoutExpired(pending, now))
  {
    LiveRows(rows, now);
    LiveDistinct(rows, now);
    var live := Live(rows, now);
    forall i | 0 <= i < |live|
      ensures live[i].approval in pending && pending[live[i].approval] == live[i] && !Expired(live[i], now)
    {
      assert live[i] in live;
    }
  }

  // Rows may leave the table, and the pass may move on to rows still there.
  lemma PassKeepsApprovals(s: State, u: State)
    requires ApprovalInv(s) && LockInv(u)
    requires u.agents == s.agents && u.tasks == s.tasks && u.approvals == s.approvals && u.clock == s.clock
    requires u.h.recorded == s.h.recorded && u.h.launches == s.h.launches
    requires forall a | a in u.db.pending :: a in s.db.pending && u.db.pending[a] == s.db.pending[a]
    requires TodoOk(Todo(u.pass), u.db.pending)
    ensures ApprovalInv(u)
  {
    forall t | t in u.tasks ensures u.tasks[t].room in u.agents && WatchOk(u, t) {
      assert WatchOk(s, t);
    }
    forall a ensures ApprovalOk(u, a) {
      assert ApprovalOk(s, a);
    }
  }

  lemma PassBeginKeepsApprovals(s: State, rows: seq<Pending>, now: int)
    requires ApprovalInv(s) && PassBeginStep(s, rows, now).Some? && LockInv(PassBeginStep(s, rows, now).value)
    ensures ApprovalInv(PassBeginStep(s, rows, now).value)
  {
    hide ApprovalInv, LockInv;
    var u := PassBeginStep(s, rows, now).value;
    LiveTodoOk(rows, s.db.pending, now);
    PassKeepsApprovals(s, u);
  }

  lemma RestOk(todo: seq<Pending>, pending: map<ApprovalId, Pending>)
    requires TodoOk(todo, pending) && todo != []
    ensures TodoOk(todo[1..], pending) && TodoOk(todo[1..], pending - {todo[0].approval})
  {
  }

  lemma UnclaimedKeepsApprovals(s: State)
    requires ApprovalInv(s) && s.pass.Acting? && s.pass.todo != []
    requires var row, rest, states := s.pass.todo[0], s.pass.todo[1..], s.pass.states;
             && LockInv(Drop(s, row, rest, states)) && LockInv(Deny(s, row, rest, states))
             && LockInv(s.(pass := Acting(rest, states)))
    ensures var row, rest, states := s.pass.todo[0], s.pass.todo[1..], s.pass.states;
            && ApprovalInv(Drop(s, row, rest, states)) && ApprovalInv(Deny(s, row, rest, states))
            && ApprovalInv(s.(pass := Acting(rest, states)))
  {
    var row, rest, states := s.pass.todo[0], s.pass.todo[1..], s.pass.states;
    RestOk(s.pass.todo, s.db.pending);
    hide ApprovalInv, LockInv, TodoOk;
    PassKeepsApprovals(s, Drop(s, row, rest, states));
    PassKeepsApprovals(s, Deny(s, row, rest, states));
    PassKeepsApprovals(s, s.(pass := Acting(rest, states)));
  }

  lemma ClaimKeepsApprovals(s: State)
    requires ApprovalInv(s) && s.pass.Acting? && s.pass.todo != [] && RECONCILER !in s.tasks &&
             s.pass.todo[0].room in s.agents
    requires LockInv(Claim(s, s.pass.todo[0], s.pass.todo[1..], s.pass.states))
    ensures ApprovalInv(Claim(s, s.pass.todo[0], s.pass.todo[1..], s.pass.states))
  {
    var row := s.pass.todo[0];
    var u, v := Claim(s, row, s.pass.todo[1..], s.pass.states), Drop(s, row, s.pass.todo[1..], s.pass.states);
    RestOk(s.pass.todo, s.db.pending);
    assert ApprovalOk(s, row.approval) && s.db.pending[row.approval] == row;
    forall t | t in u.tasks ensures u.tasks[t].room in u.agents && WatchOk(u, t) {
      if t != RECONCILER {
        assert WatchOk(s, t);
      }
    }
    forall a ensures ApprovalOk(u, a) {
      assert ApprovalOk(s, a);
    }
    assert !LaunchedFor(s.h.launches, row.approval);
  }

  lemma PassActKeepsApprovals(s: State)
    requires ApprovalInv(s) && PassActStep(s).Some? && LockInv(PassActStep(s).value)
    ensures ApprovalInv(PassActStep(s).value)
  {
    assert LockInv(s);
    hide ApprovalInv, LockInv, Decided, Claim, Drop, Deny;
    if s.pass.todo == [] {
      PassKeepsApprovals(s, s.(pass := Resting));
    } else {
      var row, rest, states := s.pass.todo[0], s.pass.todo[1..], s.pass.states;
      UnclaimedKeeps(s, row, rest, states);
      UnclaimedKeepsApprovals(s);
      if Decided(row, states, ApprovedApproval) && row.room in s.agents {
        ClaimKeepsApprovals(s);
      }
    }
  }

  lemma DenyPostedKeepsApprovals(s: State, event: EventId)
    requires ApprovalInv(s) && DenyPostedStep(s, event).Some? && LockInv(DenyPostedStep(s, event).value)
    ensures ApprovalInv(DenyPostedStep(s, event).value)
  {
    DenyPostedMovesNothing(s, event);
    PassTodoOk(s);
    hide ApprovalInv, LockInv, DenyPostedStep;
    PassKeepsApprovals(s, DenyPostedStep(s, event).value);
  }

  lemma PassTodoOk(s: State)
    requires ApprovalInv(s)
    ensures TodoOk(Todo(s.pass), s.db.pending) && LockInv(s)
  {
  }

  // ----- Restarts and other tasks -----

  lemma CrashKeepsApprovals(s: State, agents: map<RoomId, AgentName>, registry: bool)
    requires ApprovalInv(s) && CrashStep(s, agents, registry).Some? && LockInv(CrashStep(s, agents, registry).value)
    ensures ApprovalInv(CrashStep(s, agents, registry).value)
  {
    var u := CrashStep(s, agents, registry).value;
    forall a ensures ApprovalOk(u, a) {
      assert ApprovalOk(s, a);
    }
  }

  lemma DispatchKeepsApprovals(s: State, tid: TaskId, m: Message)
    requires ApprovalInv(s) && DispatchStep(s, tid, m).Some? && LockInv(DispatchStep(s, tid, m).value)
    ensures ApprovalInv(DispatchStep(s, tid, m).value)
  {
    var u := DispatchStep(s, tid, m).value;
    forall t | t in u.tasks ensures u.tasks[t].room in u.agents && WatchOk(u, t) {
      if t != tid {
        assert WatchOk(s, t);
      }
    }
    forall a ensures ApprovalOk(u, a) {
      assert ApprovalOk(s, a);
    }
  }

  lemma CleanKeepsApprovals(s: State, cutoff: int)
    requires ApprovalInv(s) && LockInv(s.(db := Cleanup(s.db, cutoff)))
    ensures ApprovalInv(s.(db := Cleanup(s.db, cutoff)))
  {
    PassTodoOk(s);
    assert Cleanup(s.db, cutoff).pending == s.db.pending;
    hide ApprovalInv, LockInv, Cleanup;
    PassKeepsApprovals(s, s.(db := Cleanup(s.db, cutoff)));
  }

  // ----- Every step -----

  lemma ApprovalInvStep(s: State, step: Step, s': State)
    requires ApprovalInv(s) && Next(s, step) == Some(s')
    ensures ApprovalInv(s')
  {
    PassTodoOk(s);
    LockInvStep(s, step, s');
    if IsQuietStep(s, step) {
      QuietSteps(s, step, s');
      hide ApprovalInv, LockInv, Quiet, Next;
      QuietKeepsApprovals(s, s', step.tid);
    } else {
      hide ApprovalInv, LockInv, IsQuietStep, TodoOk, DispatchStep, RouteStep, PostedStep, RegisteredStep,
           AcquireStep, LaunchedStep, ExitedStep, TimedOutStep, ReapedStep, FailedStep, QueryStep, RecordStep,
           LinkedStep, CancelStep, AbortStep, PassBeginStep, PassActStep, DenyPostedStep, CrashStep, RaiseStep,
           SettleStep;
      match step
      case Dispatch(tid, m) => DispatchKeepsApprovals(s, tid, m);
      case Registered(tid) => StartsKeepApprovals(s, step, s');
      case Acquire(tid, wall, id) => StartsKeepApprovals(s, step, s');
      case Query(tid, found) => QueryKeepsApprovals(s, tid, found);
      case Record(tid, tool, now) => RecordsKeepApprovals(s, tid, tool, now);
      case PassBegin(rows, now) => PassBeginKeepsApprovals(s, rows, now);
      case PassFetched(states) => PassKeepsApprovals(s, s');
      case PassAct => PassActKeepsApprovals(s);
      case DenyPosted(event) => DenyPostedKeepsApprovals(s, event);
      case PassAbort => RestingKeepsApprovals(s);
      case Clean(cutoff) => CleanKeepsApprovals(s, cutoff);
      case Crash(agents, registry) => CrashKeepsApprovals(s, agents, registry);
      case Raise(a, agent, own) => RaiseKeepsApprovals(s, a, agent, own);
      case Settle(a, state) => SettleKeepsApprovals(s, a, state);
      case Transcript(id) => PassKeepsApprovals(s, s');
      case _ =>
    }
  }

  lemma RestingKeepsApprovals(s: State)
    requires ApprovalInv(s) && LockInv(s.(pass := Resting))
    ensures ApprovalInv(s.(pass := Resting))
  {
    PassKeepsApprovals(s, s.(pass := Resting));
  }

  lemma StartsKeepApprovals(s: State, step: Step, s': State)
    requires ApprovalInv(s) && LockInv(s') && Next(s, step) == Some(s') && (step.Registered? || step.Acquire?)
    requires !IsQuietStep(s, step)
    ensures ApprovalInv(s')
  {
    hide ApprovalInv, LockInv;
    match step
    case Registered(tid) =>
      assert s.(locks := s.locks) == s;
      StartKeepsApprovals(s, tid, s.locks);
    case Acquire(tid, wall, id) => StartKeepsApprovals(s, tid, s.locks[s.tasks[tid].room := tid]);
  }

  lemma RecordsKeepApprovals(s: State, tid: TaskId, tool: string, now: int)
    requires ApprovalInv(s) && RecordStep(s, tid, tool, now).Some? && LockInv(RecordStep(s, tid, tool, now).value)
    requires !IsQuietStep(s, Record(tid, tool, now))
    ensures ApprovalInv(RecordStep(s, tid, tool, now).value)
  {
    hide ApprovalInv, LockInv;
    RecordKeepsApprovals(s, tid, tool, now);
  }

  // In every reachable state.
  lemma {:induction false} ApprovalInvAlways(states: seq<State>, steps: seq<Step>, n: nat)
    requires Run(states, steps) && n < |states|
    ensures ApprovalInv(states[n])
  {
    hide ApprovalInv, Next, Init;
    if n == 0 {
      ApprovalInvInit(states[0]);
    } else {
      ApprovalInvAlways(states, steps, n - 1);
      ApprovalInvStep(states[n - 1], steps[n - 1], states[n]);
    }
  }

  // ----- The theorems -----

  // Whatever handlers, passes and restarts do, an approval is recorded at most once ...
  lemma RecordedAtMostOnce(states: seq<State>, steps: seq<Step>, n: nat, a: ApprovalId)
    requires Run(states, steps) && n < |states|
    ensures states[n].h.recorded[a] <= 1
  {
    ApprovalInvAlways(states, steps, n);
    assert ApprovalOk(states[n], a);
  }

  // ... and claude is started at most once because of it.
  lemma ResumedAtMostOnce(states: seq<State>, steps: seq<Step>, n: nat, a: ApprovalId, i: nat, j: nat)
    requires Run(states, steps) && n < |states|
    requires i < |states[n].h.launches| && j < |states[n].h.launches|
    requires states[n].h.launches[i].origin == Approved(a) && states[n].h.launches[j].origin == Approved(a)
    ensures i == j
  {
    ApprovalInvAlways(states, steps, n);
    assert LaunchesOk(states[n]);
  }

  // A resume goes to the session, thread and room of the turn that was being
  // watched when the approval came up, and only after it was recorded and
  // claimed. So an approval is resumed for the turn that raised it, whenever
  // a running turn of its agent did.
  lemma ResumedWhereRaised(states: seq<State>, steps: seq<Step>, n: nat, i: nat)
    requires Run(states, steps) && n < |states|
    requires i < |states[n].h.launches| && states[n].h.launches[i].origin.Approved?
    ensures var s, launch := states[n], states[n].h.launches[i];
            var a := launch.origin.approval;
            && a in s.approvals && s.h.recorded[a] == 1 && a !in s.db.pending
            && s.approvals[a].during == Some(launch.turn)
            && (s.approvals[a].raiser.Some? ==> s.approvals[a].raiser == Some(launch.turn))
  {
    ApprovalInvAlways(states, steps, n);
    var s, launch := states[n], states[n].h.launches[i];
    assert Claimed(s, launch.origin.approval, launch.turn) && ApprovalOk(s, launch.origin.approval);
  }
}
