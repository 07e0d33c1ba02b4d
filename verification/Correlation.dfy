// Which approval a turn records, over whole runs: the newest that its agent was
// waiting for when the turn looked, among those that came up since it started.
module Correlation {
  import opened Prelude
  import opened Store
  import opened Dispatching
  import opened Framing
  import opened Locking
  import opened Approvals
  import opened Turns
  import Consent
  import Requests

  // ----- When the turn started, and when it looked -----

  // A turn that is being watched was so before a step of another task.
  lemma WatchedBefore(s: State, step: Step, u: State, t: TaskId)
    requires LockInv(s) && Next(s, step) == Some(u) && TaskOf(step) != Some(t)
    requires t in u.tasks && Watching(u.tasks[t].phase)
    ensures t in s.tasks && s.tasks[t] == u.tasks[t]
  {
    hide LockInv;
    if IsQuietStep(s, step) {
      hide Next;
      QuietSteps(s, step, u);
    } else if step.Registered? || step.Acquire? || step.Query? || step.Record? {
      hide Next;
      LoudStepsMoveOnly(s, step, u);
    } else if step.PassAct? {
      PassActWatched(s, t);
    } else if step.DenyPosted? {
      DenyPostedMovesNothing(s, step.event);
    } else {
      hide Next;
      Consent.NotQuietIsOuter(s, step);
      Consent.OuterStartsNothing(s, step, u);
    }
  }

  lemma PassActWatched(s: State, t: TaskId)
    requires PassActStep(s).Some? && t in PassActStep(s).value.tasks
    requires Watching(PassActStep(s).value.tasks[t].phase)
    ensures t in s.tasks && s.tasks[t] == PassActStep(s).value.tasks[t]
  {
    hide Decided, Claim, Drop, Deny;
    if s.pass.todo != [] {
      PassActIsOneOf(s);
      hide PassActStep;
      PassActCases(s, s.pass.todo[0], s.pass.todo[1..], s.pass.states);
    }
  }

  // A step of a handler that runs no turn leads to none that is watched.
  lemma ChoresAreNotWatched(s: State, step: Step, u: State, t: TaskId)
    requires LockInv(s) && Next(s, step) == Some(u) && TaskOf(step) == Some(t) && t in u.tasks
    requires step.Dispatch? || (t in s.tasks && Chore(s.tasks[t].phase))
    ensures !Watching(u.tasks[t].phase)
  {
    hide LockInv;
    if step.Dispatch? {
    } else {
      NotWatching(s.tasks[t].phase);
      if !step.Route? {
        Requests.NextChore(s, step, t);
      }
      hide Next, Watching, Chore;
      QuietSteps(s, step, u);
    }
  }

  lemma NotWatching(p: Phase)
    requires Chore(p)
    ensures !Watching(p) && !p.SpawnRegistering?
  {
  }

  // A watched turn's own last step: it started just then, or was watched already.
  lemma WatchedSteps(s: State, step: Step, u: State, t: TaskId)
    requires t in s.tasks && t in u.tasks && Course(s, step, u, t) && TaskOf(step) == Some(t)
    requires Watching(u.tasks[t].phase)
    ensures var a, b := s.tasks[t], u.tasks[t];
            && TurnOf(b) == TurnOf(a) && b.origin == a.origin
            && if b.phase.Launching? then
                 b.phase.start == s.clock && u.h.launches == s.h.launches + [Launch(TurnOf(b), b.origin)]
               else Watching(a.phase) && StartOf(a.phase) == StartOf(b.phase)
    ensures var a, b := s.tasks[t], u.tasks[t];
            b.phase.Queried? ==> step == Query(t, b.phase.found) && a == b.(phase := Querying(b.phase.start))
  {
  }

  // Turn b of this task started at step l, when the clock read start.
  ghost predicate StartedAt(states: seq<State>, steps: seq<Step>, l: nat, tid: TaskId, b: Task, start: nat)
    requires l < |steps| && l + 1 < |states|
  {
    && TaskOf(steps[l]) == Some(tid) && start == states[l].clock
    && states[l + 1].h.launches == states[l].h.launches + [Launch(TurnOf(b), b.origin)]
  }

  lemma FindStart(states: seq<State>, steps: seq<Step>, n: nat, tid: TaskId) returns (l: nat)
    requires Run(states, steps) && n < |states| && tid in states[n].tasks && Watching(states[n].tasks[tid].phase)
    ensures l < n
    ensures StartedAt(states, steps, l, tid, states[n].tasks[tid], StartOf(states[n].tasks[tid].phase))
    ensures Lives(states, l + 1, n, tid)
  {
    hide Next, LockInv, Course, Watching;
    assert n > 0;
    LockInvAlways(states, steps, n - 1);
    l := n - 1;
    var s, step, u := states[n - 1], steps[n - 1], states[n];
    assert Next(s, step) == Some(u);
    var earlier := false;
    if TaskOf(step) == Some(tid) {
      Requests.OwnStepOwns(s, step, u, tid);
      if step.Dispatch? || Chore(s.tasks[tid].phase) {
        ChoresAreNotWatched(s, step, u, tid);
        assert false;
      } else {
        TurnCourse(s, step, u, tid);
        WatchedSteps(s, step, u, tid);
        earlier := !u.tasks[tid].phase.Launching?;
      }
    } else {
      WatchedBefore(s, step, u, tid);
      earlier := true;
    }
    if earlier {
      l := FindStart(states, steps, n - 1, tid);
    }
  }

  lemma FindQuery(states: seq<State>, steps: seq<Step>, n: nat, tid: TaskId) returns (q: nat)
    requires Run(states, steps) && n < |states| && tid in states[n].tasks && states[n].tasks[tid].phase.Queried?
    ensures q < n && steps[q] == Query(tid, states[n].tasks[tid].phase.found) && tid in states[q].tasks
    ensures var b := states[n].tasks[tid]; states[q].tasks[tid] == b.(phase := Querying(b.phase.start))
  {
    hide Next, LockInv, Course;
    assert n > 0;
    LockInvAlways(states, steps, n - 1);
    q := n - 1;
    var s, step, u := states[n - 1], steps[n - 1], states[n];
    assert Next(s, step) == Some(u);
    if TaskOf(step) == Some(tid) {
      Requests.OwnStepOwns(s, step, u, tid);
      if step.Dispatch? || Chore(s.tasks[tid].phase) {
        ChoresAreNotWatched(s, step, u, tid);
        assert false;
      } else {
        TurnCourse(s, step, u, tid);
        WatchedSteps(s, step, u, tid);
      }
    } else {
      WatchedBefore(s, step, u, tid);
      q := FindQuery(states, steps, n - 1, tid);
    }
  }

  // ----- No two approvals come up at the same time -----

  predicate TimesApart(approvals: map<ApprovalId, Approval>) {
    forall a, b | a in approvals && b in approvals && a != b :: approvals[a].createdAt != approvals[b].createdAt
  }

  lemma OthersRaiseNothing(s: State, step: Step, u: State)
    requires LockInv(s) && Next(s, step) == Some(u) && !step.Raise? && !step.Settle?
    ensures u.approvals == s.approvals
  {
    hide LockInv, PassActStep, DenyPostedStep;
    if IsQuietStep(s, step) {
      hide Next;
      QuietSteps(s, step, u);
    } else if step.PassAct? {
      Requests.PassActStartsNothing(s);
    } else if step.DenyPosted? {
      DenyPostedMovesNothing(s, step.event);
    } else {
      hide FreshSession, StampsOf, LastSpawn, QueryAnswer, Cleanup, StatesAnswer, Listing, Live, WithoutExpired;
    }
  }

  lemma RaiseKeepsApart(s: State, a: ApprovalId, agent: AgentName, own: bool)
    requires ApprovalInv(s) && TimesApart(s.approvals) && RaiseStep(s, a, agent, own).Some?
    ensures TimesApart(RaiseStep(s, a, agent, own).value.approvals)
  {
    hide Watcher, RunnerIn;
    forall b | b in s.approvals ensures s.approvals[b].createdAt < s.clock {
      assert ApprovalOk(s, b);
    }
    hide ApprovalInv;
  }

  lemma SettleKeepsApart(s: State, a: ApprovalId, state: ApprovalState)
    requires TimesApart(s.approvals) && SettleStep(s, a, state).Some?
    ensures TimesApart(SettleStep(s, a, state).value.approvals)
  {
  }

  lemma {:induction false} TimesApartAlways(states: seq<State>, steps: seq<Step>, n: nat)
    requires Run(states, steps) && n < |states|
    ensures TimesApart(states[n].approvals)
  {
    hide Next;
    if n > 0 {
      TimesApartAlways(states, steps, n - 1);
      ApprovalInvAlways(states, steps, n - 1);
      LockInvAlways(states, steps, n - 1);
      var s, step, u := states[n - 1], steps[n - 1], states[n];
      assert Next(s, step) == Some(u);
      hide ApprovalInv, LockInv, Run, TimesApart;
      if step.Raise? || step.Settle? {
        WorldKeepsApart(s, step, u);
      } else {
        OthersRaiseNothing(s, step, u);
      }
    }
  }

  lemma WorldKeepsApart(s: State, step: Step, u: State)
    requires ApprovalInv(s) && TimesApart(s.approvals) && Next(s, step) == Some(u) && (step.Raise? || step.Settle?)
    ensures TimesApart(u.approvals)
  {
    hide ApprovalInv, TimesApart, RaiseStep, SettleStep;
    match step
    case Raise(a, agent, own) => RaiseKeepsApart(s, a, agent, own);
    case Settle(a, state) => SettleKeepsApart(s, a, state);
  }

  // An approval changes only because it is settled, and then as it was settled.
  lemma OnlySettlingDecides(states: seq<State>, steps: seq<Step>, n: nat, a: ApprovalId)
    requires Run(states, steps) && n < |steps| && a in states[n].approvals
    ensures a in states[n + 1].approvals
    ensures var before, after := states[n].approvals[a], states[n + 1].approvals[a];
            after == if steps[n].Settle? && steps[n].approval == a then before.(state := steps[n].state) else before
  {
    LockInvAlways(states, steps, n);
    assert Next(states[n], steps[n]) == Some(states[n + 1]);
    hide LockInv, Run;
    if !steps[n].Raise? && !steps[n].Settle? {
      hide Next;
      OthersRaiseNothing(states[n], steps[n], states[n + 1]);
    } else {
      hide Watcher, RunnerIn;
    }
  }

  // ----- The newest is recorded -----

  // The agent is waiting for this approval, which came up at or after start.
  predicate WaitsFor(s: State, agent: AgentName, start: nat, a: ApprovalId) {
    && a in s.approvals && s.approvals[a].agent == agent
    && s.approvals[a].state == PendingApproval && s.approvals[a].createdAt >= start
  }

  lemma QueryFindsNewest(s: State, tid: TaskId, a: ApprovalId)
    requires TimesApart(s.approvals) && Next(s, Query(tid, Some(a))).Some?
    ensures tid in s.tasks && s.tasks[tid].phase.Querying? && s.tasks[tid].room in s.agents
    ensures var agent, start := s.agents[s.tasks[tid].room], s.tasks[tid].phase.start;
            && WaitsFor(s, agent, start, a)
            && forall b | b != a && WaitsFor(s, agent, start, b) :: s.approvals[b].createdAt < s.approvals[a].createdAt
  {
  }

  // Recording files one row, about the turn that recorded it.
  lemma RecordFiles(s: State, tid: TaskId, tool: string, now: int, u: State)
    requires Next(s, Record(tid, tool, now)) == Some(u) && u.db.pending != s.db.pending
    ensures tid in s.tasks && s.tasks[tid].phase.Queried? && s.tasks[tid].phase.found.Some?
    ensures var task, a := s.tasks[tid], s.tasks[tid].phase.found.value;
            u.db.pending == s.db.pending[a := Pending(a, task.root, task.session, task.room, tool, now)]
  {
    hide Unlocked;
  }

  // Looked for at step q by the turn that started at step l: a is the newest that
  // the room's agent was waiting for then, of those that came up since the turn
  // started; any other such approval is older, and is left alone.
  ghost predicate NewestSince(states: seq<State>, steps: seq<Step>, l: nat, q: nat, task: Task, tid: TaskId,
                              a: ApprovalId)
    requires l < q < |steps| && q < |states|
  {
    var s, start := states[q], states[l].clock;
    && StartedAt(states, steps, l, tid, task, start) && steps[q] == Query(tid, Some(a))
    && tid in s.tasks && TurnOf(s.tasks[tid]) == TurnOf(task) && task.room in s.agents
    && WaitsFor(s, s.agents[task.room], start, a)
    && forall b | b != a && WaitsFor(s, s.agents[task.room], start, b) ::
         s.approvals[b].createdAt < s.approvals[a].createdAt
  }

  // Whenever a turn records an approval, it is the newest of those its agent was
  // waiting for when the turn looked that came up since the turn started claude;
  // and the row is about that turn's session and thread, and bears the time of recording.
  lemma NewestIsRecorded(states: seq<State>, steps: seq<Step>, n: nat)
    requires Run(states, steps) && n < |steps| && steps[n].Record?
    requires states[n + 1].db.pending != states[n].db.pending
    ensures steps[n].tid in states[n].tasks && states[n].tasks[steps[n].tid].phase.Queried?
    ensures var tid, task := steps[n].tid, states[n].tasks[steps[n].tid];
            && task.phase.found.Some?
            && var a := task.phase.found.value;
               && a !in states[n].db.pending
               && states[n + 1].db.pending ==
                  states[n].db.pending[a := Pending(a, task.root, task.session, task.room, steps[n].tool, steps[n].now)]
               && exists l: nat, q: nat | l < q < n :: NewestSince(states, steps, l, q, task, tid, a)
  {
    hide Next, ApprovalInv, TimesApart, LockInv;
    var s, tid := states[n], steps[n].tid;
    assert Next(s, steps[n]) == Some(states[n + 1]);
    RecordFiles(s, tid, steps[n].tool, steps[n].now, states[n + 1]);
    var task, a := s.tasks[tid], s.tasks[tid].phase.found.value;
    ApprovalInvAlways(states, steps, n);
    FoundIsNew(s, tid);
    var q := FindQuery(states, steps, n, tid);
    TimesApartAlways(states, steps, q);
    assert Next(states[q], steps[q]) == Some(states[q + 1]);
    QueryFindsNewest(states[q], tid, a);
    var l := FindStart(states, steps, q, tid);
    assert NewestSince(states, steps, l, q, task, tid, a);
  }
}
