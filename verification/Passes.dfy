// What a reconcile pass makes of the rows it reads, over whole runs: by the
// clock, none is left out, and none comes back.
module Passes {
  import opened Prelude
  import opened Store
  import opened Dispatching
  import opened Framing
  import opened Locking
  import opened Approvals
  import opened Turns
  import Replies
  import Journeys
  import Requests
  import Consent

  // ----- Expiry by the clock -----

  lemma PassBeginSorts(s: State, rows: seq<Pending>, now: int, u: State, a: ApprovalId)
    requires Next(s, PassBegin(rows, now)) == Some(u) && a in s.db.pending && s.db.pending[a].approval == a
    ensures var row := s.db.pending[a];
            if now - row.createdAt >= 601 then
              a !in u.db.pending && forall x | x in Todo(u.pass) :: x.approval != a
            else
              && a in u.db.pending && u.db.pending[a] == row
              && row in Todo(u.pass) && u.pass.Fetching?
  {
    LiveRows(rows, now);
    hide Live;
  }

  // A pass takes a row older than 600 seconds out of the table and does not look
  // at it again; a row that is not older stays, and is among those it goes on with.
  lemma ExpiryByTheClock(states: seq<State>, steps: seq<Step>, n: nat, a: ApprovalId)
    requires Run(states, steps) && n < |steps| && steps[n].PassBegin? && a in states[n].db.pending
    ensures var row, u := states[n].db.pending[a], states[n + 1];
            if steps[n].now - row.createdAt >= 601 then
              a !in u.db.pending && forall x | x in Todo(u.pass) :: x.approval != a
            else
              && a in u.db.pending && u.db.pending[a] == row
              && row in Todo(u.pass) && u.pass.Fetching?
  {
    ApprovalInvAlways(states, steps, n);
    assert ApprovalOk(states[n], a);
    assert Next(states[n], steps[n]) == Some(states[n + 1]);
    hide ApprovalInv, Run, Next;
    PassBeginSorts(states[n], steps[n].rows, steps[n].now, states[n + 1], a);
  }

  // ----- Why a row leaves the table -----

  // The pass looks at this row, and the registry has told it that the approval is decided.
  predicate ActedOn(s: State, row: Pending) {
    && s.pass.Acting? && s.pass.todo != [] && s.pass.todo[0] == row && row.approval in s.pass.states
    && (s.pass.states[row.approval] == ApprovedApproval || s.pass.states[row.approval] == DeniedApproval)
  }

  lemma CasesTake(s: State, row: Pending, rest: seq<Pending>, states: map<ApprovalId, ApprovalState>)
    ensures Claim(s, row, rest, states).db.pending == s.db.pending - {row.approval}
    ensures Drop(s, row, rest, states).db.pending == s.db.pending - {row.approval}
    ensures Deny(s, row, rest, states).db.pending == s.db.pending - {row.approval}
  {
  }

  // Which rows a pass takes out of the table as it goes on to the next.
  lemma PassActRemoves(s: State)
    requires PassActStep(s).Some? && s.pass.todo != []
    ensures var row, left := s.pass.todo[0], PassActStep(s).value.db.pending;
            left == s.db.pending || (left == s.db.pending - {row.approval} && ActedOn(s, row))
  {
    hide Claim, Drop, Deny;
    CasesTake(s, s.pass.todo[0], s.pass.todo[1..], s.pass.states);
  }

  lemma PassActTakes(s: State, a: ApprovalId)
    requires PassActStep(s).Some? && a in s.db.pending && TodoOk(Todo(s.pass), s.db.pending)
    ensures var u := PassActStep(s).value;
            if a in u.db.pending then u.db.pending[a] == s.db.pending[a] else ActedOn(s, s.db.pending[a])
  {
    if s.pass.todo != [] {
      assert s.db.pending[s.pass.todo[0].approval] == s.pass.todo[0];
      hide TodoOk, ActedOn, PassActStep;
      PassActRemoves(s);
    }
  }

  // Starting a turn and looking for its approval change no table.
  lemma LoudKeepsTables(s: State, step: Step, u: State)
    requires Next(s, step) == Some(u) && !IsQuietStep(s, step) && (step.Registered? || step.Acquire? || step.Query?)
    ensures u.db == s.db && u.pass == s.pass && u.approvals == s.approvals
  {
    hide FreshSession, StampsOf, LastSpawn, QueryAnswer;
    match step
    case Registered(_) =>
    case Acquire(_, _, _) =>
    case Query(_, _) =>
  }

  lemma CleanKeepsPending(t: Tables, cutoff: int)
    ensures Cleanup(t, cutoff).pending == t.pending
  {
  }

  lemma OuterKeepsPending(s: State, step: Step, u: State)
    requires Next(s, step) == Some(u) && ((IsOuterStep(step) && !step.PassBegin?) || step.Dispatch? || step.Crash?)
    ensures u.db.pending == s.db.pending
  {
    hide StatesAnswer, Watcher, RunnerIn, Cleanup;
    if step.Clean? {
      CleanKeepsPending(s.db, step.cutoff);
    }
  }

  lemma RecordAdds(s: State, tid: TaskId, tool: string, now: int, a: ApprovalId)
    requires ApprovalInv(s) && RecordStep(s, tid, tool, now).Some? && s.tasks[tid].phase.found.Some?
    requires a in s.db.pending || a in s.h.recorded
    ensures var u := RecordStep(s, tid, tool, now).value;
            && (a in u.db.pending <==> a in s.db.pending)
            && (a in s.db.pending ==> u.db.pending[a] == s.db.pending[a])
            && u.pass == s.pass && (a in s.h.recorded ==> a in u.h.recorded)
  {
    FoundIsNew(s, tid);
    hide ApprovalInv;
  }

  lemma RowStays(s: State, step: Step, u: State, a: ApprovalId)
    requires ApprovalInv(s) && Next(s, step) == Some(u) && a in s.db.pending && !step.PassBegin? && !step.PassAct?
    ensures a in u.db.pending && u.db.pending[a] == s.db.pending[a]
  {
    PassTodoOk(s);
    hide ApprovalInv, LockInv, RecordStep, DenyPostedStep;
    if IsQuietStep(s, step) {
      hide Next;
      QuietSteps(s, step, u);
    } else if step.DenyPosted? {
      DenyPostedMovesNothing(s, step.event);
    } else if step.Record? {
      Consent.LoudRecordFinds(s, step.tid, step.tool, step.now);
      RecordAdds(s, step.tid, step.tool, step.now, a);
    } else if step.Registered? || step.Acquire? || step.Query? {
      hide Next;
      LoudKeepsTables(s, step, u);
    } else {
      hide Next;
      Consent.NotQuietIsOuter(s, step);
      OuterKeepsPending(s, step, u);
    }
  }

  // A row leaves the table only because it is older than 600 seconds when a pass
  // reads it, or because a pass was told that its approval was granted or denied
  // and takes it up; no restart, cleanup or other turn removes or changes it.
  lemma RowsLeaveForAReason(states: seq<State>, steps: seq<Step>, n: nat, a: ApprovalId)
    requires Run(states, steps) && n < |steps| && a in states[n].db.pending
    ensures var s, row, u := states[n], states[n].db.pending[a], states[n + 1];
            || (a in u.db.pending && u.db.pending[a] == row)
            || (a !in u.db.pending && steps[n].PassBegin? && steps[n].now - row.createdAt >= 601)
            || (a !in u.db.pending && steps[n].PassAct? && ActedOn(s, row))
  {
    ApprovalInvAlways(states, steps, n);
    assert Next(states[n], steps[n]) == Some(states[n + 1]);
    if steps[n].PassBegin? {
      hide Next, ApprovalInv;
      ExpiryByTheClock(states, steps, n, a);
    } else if steps[n].PassAct? {
      PassTodoOk(states[n]);
      hide ApprovalInv, PassActStep;
      PassActTakes(states[n], a);
    } else {
      hide Next, ApprovalInv, Run;
      RowStays(states[n], steps[n], states[n + 1], a);
    }
  }

  // ----- What expired is never resumed -----

  // The approval was recorded, its row is gone, and no pass has it in hand.
  predicate Spent(s: State, a: ApprovalId) {
    && a in s.h.recorded && a !in s.db.pending
    && (forall x | x in Replies.Waiters(s.pass) :: x.approval != a)
    && (RECONCILER in s.tasks ==> s.tasks[RECONCILER].origin != Approved(a))
    && (forall i | 0 <= i < |s.h.launches| :: s.h.launches[i].origin != Approved(a))
  }

  lemma ExpiredIsSpent(s: State, rows: seq<Pending>, now: int, u: State, a: ApprovalId)
    requires ApprovalInv(s) && Next(s, PassBegin(rows, now)) == Some(u) && a in s.db.pending
    requires now - s.db.pending[a].createdAt >= 601
    ensures Spent(u, a)
  {
    assert ApprovalOk(s, a);
    PassBeginSorts(s, rows, now, u, a);
    assert u.tasks == s.tasks && u.h == s.h;
    hide Live, WithoutExpired, Listing;
    assert LaunchesOk(s);
  }

  lemma SpentQuietly(s: State, u: State, tid: TaskId, a: ApprovalId)
    requires Spent(s, a) && Quiet(s, u, tid)
    ensures Spent(u, a)
  {
  }

  lemma SpentIdly(s: State, u: State, a: ApprovalId)
    requires Spent(s, a) && u.h.launches == s.h.launches && u.h.recorded == s.h.recorded
    requires a !in u.db.pending && forall x | x in Replies.Waiters(u.pass) :: x.approval != a
    requires RECONCILER in u.tasks ==> u.tasks[RECONCILER].origin != Approved(a)
    ensures Spent(u, a)
  {
  }

  lemma SpentAtBegin(s: State, rows: seq<Pending>, now: int, a: ApprovalId)
    requires Spent(s, a) && PassBeginStep(s, rows, now).Some?
    ensures Spent(PassBeginStep(s, rows, now).value, a)
  {
    LiveRows(rows, now);
    hide Live;
  }

  lemma SpentOuter(s: State, step: Step, u: State, a: ApprovalId)
    requires Spent(s, a) && Next(s, step) == Some(u)
    requires IsOuterStep(step) || step.Dispatch? || step.Crash?
    ensures Spent(u, a)
  {
    if step.PassBegin? {
      hide PassBeginStep, Spent;
      SpentAtBegin(s, step.rows, step.now, a);
    } else {
      OuterKeepsPending(s, step, u);
      Consent.OuterStartsNothing(s, step, u);
      OuterWaiters(s, step, u);
      hide Next, Replies.Waiters;
      SpentIdly(s, u, a);
    }
  }

  lemma OuterWaiters(s: State, step: Step, u: State)
    requires Next(s, step) == Some(u) && ((IsOuterStep(step) && !step.PassBegin?) || step.Dispatch? || step.Crash?)
    ensures forall x | x in Replies.Waiters(u.pass) :: x in Replies.Waiters(s.pass)
  {
    hide Cleanup, StatesAnswer, Watcher, RunnerIn;
  }

  lemma SpentInPass(s: State, a: ApprovalId)
    requires Spent(s, a) && PassActStep(s).Some?
    ensures Spent(PassActStep(s).value, a)
  {
    if s.pass.todo == [] {
      SpentIdly(s, s.(pass := Resting), a);
    } else {
      var row, rest, states := s.pass.todo[0], s.pass.todo[1..], s.pass.states;
      assert row in Replies.Waiters(s.pass) && forall x | x in rest :: x in Replies.Waiters(s.pass);
      hide Claim, Drop, Deny, Decided, Spent;
      SpentClaimed(s, row, rest, states, a);
      SpentUnclaimed(s, row, rest, states, a);
    }
  }

  lemma SpentClaimed(s: State, row: Pending, rest: seq<Pending>, states: map<ApprovalId, ApprovalState>, a: ApprovalId)
    requires Spent(s, a) && row.approval != a && forall x | x in rest :: x.approval != a
    ensures Spent(Claim(s, row, rest, states), a)
  {
    SpentIdly(s, Claim(s, row, rest, states), a);
  }

  lemma SpentUnclaimed(s: State, row: Pending, rest: seq<Pending>, states: map<ApprovalId, ApprovalState>,
                       a: ApprovalId)
    requires Spent(s, a) && row.approval != a && forall x | x in rest :: x.approval != a
    ensures Spent(Drop(s, row, rest, states), a) && Spent(Deny(s, row, rest, states), a)
    ensures Spent(s.(pass := Acting(rest, states)), a)
  {
    SpentIdly(s, Drop(s, row, rest, states), a);
    SpentIdly(s, Deny(s, row, rest, states), a);
    SpentIdly(s, s.(pass := Acting(rest, states)), a);
    hide Spent;
  }

  lemma SpentStep(s: State, step: Step, u: State, a: ApprovalId)
    requires ApprovalInv(s) && Spent(s, a) && Next(s, step) == Some(u)
    ensures Spent(u, a)
  {
    PassTodoOk(s);
    hide LockInv, RecordStep, DenyPostedStep, PassActStep;
    hide ApprovalInv;
    if IsQuietStep(s, step) {
      hide Next, Spent;
      QuietSteps(s, step, u);
      SpentQuietly(s, u, step.tid, a);
    } else if step.DenyPosted? {
      DenyPostedMovesNothing(s, step.event);
      SpentIdly(s, u, a);
    } else if step.PassAct? {
      hide Spent;
      SpentInPass(s, a);
    } else if step.Record? {
      Consent.LoudRecordFinds(s, step.tid, step.tool, step.now);
      SpentRecord(s, step.tid, step.tool, step.now, a);
    } else if step.Registered? || step.Acquire? || step.Query? {
      hide Next;
      LockInvStep(s, step, u);
      SpentLoudly(s, step, u, a);
    } else {
      hide Next, Spent;
      Consent.NotQuietIsOuter(s, step);
      SpentOuter(s, step, u, a);
    }
  }

  lemma SpentRecord(s: State, tid: TaskId, tool: string, now: int, a: ApprovalId)
    requires ApprovalInv(s) && Spent(s, a) && RecordStep(s, tid, tool, now).Some? && s.tasks[tid].phase.found.Some?
    ensures Spent(RecordStep(s, tid, tool, now).value, a)
  {
    RecordAdds(s, tid, tool, now, a);
    hide ApprovalInv;
  }

  lemma SpentLoudly(s: State, step: Step, u: State, a: ApprovalId)
    requires LockInv(s) && LockInv(u) && Spent(s, a) && Next(s, step) == Some(u) && !IsQuietStep(s, step)
    requires step.Registered? || step.Acquire? || step.Query?
    ensures Spent(u, a)
  {
    LoudKeepsTables(s, step, u);
    LoudStepsMoveOnly(s, step, u);
    LoudKeepsOrigin(s, step, u);
    Requests.LaunchesInherit(s, step, u);
    InvOk(u, step.tid, "");
    hide Next, LockInv, Replies.Waiters;
  }

  lemma LoudKeepsOrigin(s: State, step: Step, u: State)
    requires Next(s, step) == Some(u) && !IsQuietStep(s, step)
    requires step.Registered? || step.Acquire? || step.Query?
    ensures step.tid in s.tasks && step.tid in u.tasks && u.tasks[step.tid].origin == s.tasks[step.tid].origin
    ensures u.h.recorded == s.h.recorded
  {
    hide FreshSession, StampsOf, LastSpawn, QueryAnswer;
    match step
    case Registered(_) =>
    case Acquire(_, _, _) =>
    case Query(_, _) =>
  }

  lemma {:induction false} SpentAlways(states: seq<State>, steps: seq<Step>, m: nat, n: nat, a: ApprovalId)
    requires Run(states, steps) && m <= n < |states| && Spent(states[m], a)
    ensures Spent(states[n], a)
    decreases n
  {
    hide Spent, Next, Init;
    if m < n {
      SpentAlways(states, steps, m, n - 1, a);
      ApprovalInvAlways(states, steps, n - 1);
      assert Next(states[n - 1], steps[n - 1]) == Some(states[n]);
      hide ApprovalInv, Run;
      SpentStep(states[n - 1], steps[n - 1], states[n], a);
    }
  }

  // An approval whose row is older than 600 seconds when a pass reads it is not
  // resumed by that pass or any later one, nor taken up for a note; whatever it
  // is granted or denied then, it is the operator's to try again.
  lemma ExpiredIsNeverResumed(states: seq<State>, steps: seq<Step>, m: nat, n: nat, a: ApprovalId)
    requires Run(states, steps) && m < n < |states| && steps[m].PassBegin? && a in states[m].db.pending
    requires steps[m].now - states[m].db.pending[a].createdAt >= 601
    ensures var s := states[n];
            && a !in s.db.pending
            && (forall x | x in Replies.Waiters(s.pass) :: x.approval != a)
            && forall i | 0 <= i < |s.h.launches| :: s.h.launches[i].origin != Approved(a)
  {
    ApprovalInvAlways(states, steps, m);
    assert Next(states[m], steps[m]) == Some(states[m + 1]);
    hide Next, ApprovalInv, Init;
    ExpiredIsSpent(states[m], steps[m].rows, steps[m].now, states[m + 1], a);
    SpentAlways(states, steps, m + 1, n, a);
  }

  // ----- A pass comes to every row -----

  // What the pass makes of the row it looks at, by what the registry has told it.
  predicate Handled(s: State, u: State, row: Pending) {
    && s.pass.Acting? && s.pass.todo != [] && s.pass.todo[0] == row
    && var told := if row.approval in s.pass.states then s.pass.states[row.approval] else PendingApproval;
       if told == ApprovedApproval then
         && row.approval !in u.db.pending
         && (if row.room in s.agents then
               && RECONCILER in u.tasks && u.pass.Resuming?
               && u.tasks[RECONCILER] == Task(row.room, row.root, row.session, Approved(row.approval), Waiting)
             else u.pass.Acting? && u.tasks == s.tasks)
       else if told == DeniedApproval then
         row.approval !in u.db.pending && u.pass.Denying? && u.pass.row == row && u.tasks == s.tasks
       else u.db == s.db && u.tasks == s.tasks && u.pass.Acting?
  }

  lemma PassActHandles(s: State)
    requires PassActStep(s).Some? && s.pass.todo != []
    ensures Handled(s, PassActStep(s).value, s.pass.todo[0])
  {
    hide Claim, Drop, Deny;
    var row, rest, states := s.pass.todo[0], s.pass.todo[1..], s.pass.states;
    CasesTake(s, row, rest, states);
    CasesGoOn(s, row, rest, states);
    Locking.PassActCases(s, row, rest, states);
  }

  // What the registry told the pass, if it has.
  function Told(pass: Pass): Option<map<ApprovalId, ApprovalState>> {
    if pass.Resting? || pass.Fetching? then None else Some(pass.states)
  }

  // A pass that goes on keeps its rows in order, but for the one it has looked at,
  // and what it has been told.
  predicate GoesOn(s: State, step: Step, u: State) {
    if step.PassAct? then
      s.pass.Acting? && s.pass.todo != [] && Todo(u.pass) == s.pass.todo[1..] && Told(u.pass) == Told(s.pass)
    else if step.PassFetched? then
      s.pass.Fetching? && Todo(u.pass) == Todo(s.pass) && Told(u.pass) == Some(step.states)
    else Todo(u.pass) == Todo(s.pass) && Told(u.pass) == Told(s.pass)
  }

  lemma PassGoesOn(s: State, step: Step, u: State)
    requires LockInv(s) && Next(s, step) == Some(u) && !s.pass.Resting? && !u.pass.Resting?
    ensures GoesOn(s, step, u)
  {
    hide LockInv, RecordStep, DenyPostedStep, PassActStep;
    if IsQuietStep(s, step) {
      hide Next;
      QuietSteps(s, step, u);
    } else if step.DenyPosted? {
      DenyPostedMovesNothing(s, step.event);
      assert s.pass.Denying? by {
        DeniesBefore(s, step.event);
      }
    } else if step.PassAct? {
      PassActGoesOn(s);
    } else if step.Record? {
      RecordKeepsPass(s, step.tid, step.tool, step.now);
    } else if step.Registered? || step.Acquire? || step.Query? {
      hide Next;
      LoudKeepsTables(s, step, u);
    } else {
      Consent.NotQuietIsOuter(s, step);
      OuterGoesOn(s, step, u);
    }
  }

  lemma DeniesBefore(s: State, event: EventId)
    requires DenyPostedStep(s, event).Some?
    ensures s.pass.Denying?
  {
    hide FreshEvent;
  }

  lemma RecordKeepsPass(s: State, tid: TaskId, tool: string, now: int)
    requires RecordStep(s, tid, tool, now).Some? && !IsQuietStep(s, Record(tid, tool, now))
    ensures RecordStep(s, tid, tool, now).value.pass == s.pass
  {
  }

  lemma CasesGoOn(s: State, row: Pending, rest: seq<Pending>, states: map<ApprovalId, ApprovalState>)
    ensures Claim(s, row, rest, states).pass == Resuming(rest, states)
    ensures Drop(s, row, rest, states).pass == Acting(rest, states)
    ensures Deny(s, row, rest, states).pass == Denying(row, rest, states)
  {
  }

  lemma PassActGoesOn(s: State)
    requires PassActStep(s).Some? && !PassActStep(s).value.pass.Resting?
    ensures GoesOn(s, PassAct, PassActStep(s).value)
  {
    hide Claim, Drop, Deny, Decided;
    if s.pass.todo != [] {
      CasesGoOn(s, s.pass.todo[0], s.pass.todo[1..], s.pass.states);
    }
  }

  lemma OuterGoesOn(s: State, step: Step, u: State)
    requires Next(s, step) == Some(u) && (IsOuterStep(step) || step.Dispatch? || step.Crash?)
    requires !s.pass.Resting? && !u.pass.Resting?
    ensures GoesOn(s, step, u)
  {
    hide Cleanup, StatesAnswer, Watcher, RunnerIn, Listing, Live, WithoutExpired;
  }

  // The pass was told this at some step between m and n, and these were the states then.
  ghost predicate ToldBetween(states: seq<State>, steps: seq<Step>, m: nat, n: nat,
                              told: map<ApprovalId, ApprovalState>)
    requires n <= |steps| && n <= |states|
  {
    exists f | m < f < n ::
      && steps[f] == PassFetched(told)
      && forall a | a in told :: a in states[f].approvals && states[f].approvals[a].state == told[a]
  }

  // Between m and n the pass came to the row, knowing what the registry had told it.
  ghost predicate CameTo(states: seq<State>, steps: seq<Step>, m: nat, n: nat, row: Pending)
    requires n <= |steps| && n < |states|
  {
    exists k | m < k < n ::
      && steps[k] == PassAct && Handled(states[k], states[k + 1], row)
      && ToldBetween(states, steps, m, k, states[k].pass.states)
  }

  // The pass that began at step m is on until state n.
  ghost predicate PassLasts(states: seq<State>, m: nat, n: nat)
    requires n < |states|
  {
    forall k | m < k <= n :: !states[k].pass.Resting?
  }

  ghost predicate OnTheWay(states: seq<State>, steps: seq<Step>, m: nat, n: nat, row: Pending)
    requires n < |states| == |steps| + 1
  {
    && (row in Todo(states[n].pass) || CameTo(states, steps, m, n, row))
    && (Told(states[n].pass).Some? ==> ToldBetween(states, steps, m, n, Told(states[n].pass).value))
  }

  // A pass that is not cut short comes to every row that is not older than 600
  // seconds: it resumes the session of an approval the registry has reported as
  // granted, answers one reported as denied, and leaves the others.
  lemma {:induction false} PassReachesEveryRow(states: seq<State>, steps: seq<Step>, m: nat, n: nat, a: ApprovalId)
    requires Run(states, steps) && m < n < |states| && steps[m].PassBegin? && PassLasts(states, m, n)
    requires a in states[m].db.pending && steps[m].now - states[m].db.pending[a].createdAt <= 600
    ensures var row := states[m].db.pending[a];
            row in Todo(states[n].pass) || CameTo(states, steps, m, n, row)
    ensures Told(states[n].pass).Some? ==> ToldBetween(states, steps, m, n, Told(states[n].pass).value)
    decreases n
  {
    hide Next, CameTo, ToldBetween, Init;
    if n == m + 1 {
      ExpiryByTheClock(states, steps, m, a);
    } else {
      assert PassLasts(states, m, n - 1) && !states[n - 1].pass.Resting? && !states[n].pass.Resting?;
      hide PassLasts;
      PassReachesEveryRow(states, steps, m, n - 1, a);
      assert Next(states[n - 1], steps[n - 1]) == Some(states[n]);
      LockInvAlways(states, steps, n - 1);
      hide Run, LockInv;
      OnTheWayStill(states, steps, m, n, states[m].db.pending[a]);
    }
  }

  lemma OnTheWayStill(states: seq<State>, steps: seq<Step>, m: nat, n: nat, row: Pending)
    requires m + 1 < n < |states| == |steps| + 1 && OnTheWay(states, steps, m, n - 1, row) && LockInv(states[n - 1])
    requires Next(states[n - 1], steps[n - 1]) == Some(states[n])
    requires !states[n - 1].pass.Resting? && !states[n].pass.Resting?
    ensures OnTheWay(states, steps, m, n, row)
  {
    hide Next, LockInv, CameTo, ToldBetween;
    PassGoesOn(states[n - 1], steps[n - 1], states[n]);
    ToldStill(states, steps, m, n);
    if steps[n - 1].PassFetched? {
      FetchIsTold(states, steps, m, n);
    }
    if CameTo(states, steps, m, n - 1, row) {
      CameStill(states, steps, m, n, row);
    } else if steps[n - 1].PassAct? && states[n - 1].pass.todo[0] == row {
      ComesTo(states, steps, m, n, row);
    }
  }

  lemma ComesTo(states: seq<State>, steps: seq<Step>, m: nat, n: nat, row: Pending)
    requires m + 1 < n < |states| == |steps| + 1 && Next(states[n - 1], steps[n - 1]) == Some(states[n])
    requires steps[n - 1] == PassAct && states[n - 1].pass.Acting? && states[n - 1].pass.todo != []
    requires states[n - 1].pass.todo[0] == row && ToldBetween(states, steps, m, n - 1, states[n - 1].pass.states)
    ensures CameTo(states, steps, m, n, row)
  {
    hide PassActStep, ToldBetween, Handled;
    PassActHandles(states[n - 1]);
  }

  lemma FetchIsTold(states: seq<State>, steps: seq<Step>, m: nat, n: nat)
    requires m + 1 < n < |states| == |steps| + 1 && Next(states[n - 1], steps[n - 1]) == Some(states[n])
    requires steps[n - 1].PassFetched?
    ensures ToldBetween(states, steps, m, n, steps[n - 1].states)
  {
    FetchIsTrue(states[n - 1], steps[n - 1].states);
    hide Next;
  }

  lemma FetchIsTrue(s: State, told: map<ApprovalId, ApprovalState>)
    requires PassFetchedStep(s, told).Some?
    ensures forall a | a in told :: a in s.approvals && s.approvals[a].state == told[a]
  {
  }

  lemma ToldStill(states: seq<State>, steps: seq<Step>, m: nat, n: nat)
    requires 0 < n <= |steps| && n <= |states|
    ensures forall told | ToldBetween(states, steps, m, n - 1, told) :: ToldBetween(states, steps, m, n, told)
  {
  }

  lemma CameStill(states: seq<State>, steps: seq<Step>, m: nat, n: nat, row: Pending)
    requires 0 < n <= |steps| && n < |states| && CameTo(states, steps, m, n - 1, row)
    ensures CameTo(states, steps, m, n, row)
  {
    hide Handled;
  }

  // ----- What follows -----

  // An approval that a pass takes up is resumed: as long as the loop's turn lives
  // and no restart comes, it is about the row's session in the row's thread, and on
  // getting the room lock it starts claude for it, exactly once and never before.
  lemma GrantedIsResumed(states: seq<State>, steps: seq<Step>, k: nat, n: nat, row: Pending)
    requires Run(states, steps) && k < n < |states| && steps[k] == PassAct
    requires states[k].pass.Acting? && states[k].pass.todo != [] && states[k].pass.todo[0] == row
    requires row.approval in states[k].pass.states && states[k].pass.states[row.approval] == ApprovedApproval
    requires row.room in states[k].agents && forall j | k + 1 < j <= n :: RECONCILER in states[j].tasks
    ensures RECONCILER in states[n].tasks
    ensures var b := states[n].tasks[RECONCILER];
            && TurnOf(b) == RowTurn(row) && b.origin == Approved(row.approval)
            && if exists j | k < j < n :: steps[j].Acquire? && steps[j].tid == RECONCILER
               then LaunchedBy(states, steps, k, n, RECONCILER) == [Launch(RowTurn(row), Approved(row.approval))]
               else LaunchedBy(states, steps, k, n, RECONCILER) == [] && b.phase.Waiting?
  {
    assert Next(states[k], steps[k]) == Some(states[k + 1]);
    hide Next;
    GrantedWaits(states[k], row, states[k + 1]);
    assert Lives(states, k + 1, n, RECONCILER);
    hide Run, Lives, LaunchedBy;
    Journeys.TurnFollows(states, steps, k, n, RECONCILER);
    assert Journeys.HasStarted(steps, k + 1, n, Approved(row.approval), RECONCILER) <==>
           exists j | k < j < n :: steps[j].Acquire? && steps[j].tid == RECONCILER;
    Journeys.WaitsUntilItStarts(states, steps, k + 1, n, RECONCILER);
  }

  lemma GrantedWaits(s: State, row: Pending, u: State)
    requires Next(s, PassAct) == Some(u) && s.pass.Acting? && s.pass.todo != [] && s.pass.todo[0] == row
    requires row.approval in s.pass.states && s.pass.states[row.approval] == ApprovedApproval && row.room in s.agents
    ensures RECONCILER in u.tasks
    ensures u.tasks[RECONCILER] == Task(row.room, row.root, row.session, Approved(row.approval), Waiting)
    ensures u.h == s.h
  {
    hide PassActStep;
    PassActHandles(s);
    Requests.PassActStartsNothing(s);
  }

  // A denial is answered with one note in the row's thread, which is linked to the
  // thread if that is still there; if it is not, the pass ends there.
  lemma DenialIsNoted(states: seq<State>, steps: seq<Step>, n: nat)
    requires Run(states, steps) && n < |steps| && steps[n].DenyPosted?
    ensures var s, u, event := states[n], states[n + 1], steps[n].event;
            && s.pass.Denying?
            && u.h.posts == s.h.posts + [Post(s.pass.row.room, s.pass.row.root, s.pass.row.session, Refusal, event)]
            && u.h.launches == s.h.launches && u.tasks == s.tasks && u.db.sessions == s.db.sessions
            && (if event == "" || event in s.db.aliases then u.db.aliases == s.db.aliases && Todo(u.pass) == s.pass.todo
                else if s.pass.row.root in s.db.sessions then
                  u.db.aliases == s.db.aliases[event := s.pass.row.root] && Todo(u.pass) == s.pass.todo
                else u.db.aliases == s.db.aliases && u.pass.Resting?)
  {
    assert Next(states[n], steps[n]) == Some(states[n + 1]);
    hide Run, DenyPostedStep;
    DenyPosts(states[n], steps[n].event);
  }

  lemma DenyPosts(s: State, event: EventId)
    requires DenyPostedStep(s, event).Some?
    ensures var u := DenyPostedStep(s, event).value;
            && s.pass.Denying?
            && u.h.posts == s.h.posts + [Post(s.pass.row.room, s.pass.row.root, s.pass.row.session, Refusal, event)]
            && u.h.launches == s.h.launches && u.tasks == s.tasks && u.db.sessions == s.db.sessions
            && (if event == "" || event in s.db.aliases then u.db.aliases == s.db.aliases && Todo(u.pass) == s.pass.todo
                else if s.pass.row.root in s.db.sessions then
                  u.db.aliases == s.db.aliases[event := s.pass.row.root] && Todo(u.pass) == s.pass.todo
                else u.db.aliases == s.db.aliases && u.pass.Resting?)
  {
    DenyPostedMovesNothing(s, event);
    Replies.DenyPostedSays(s, event);
    DenyPassGoesOn(s, event);
    hide DenyPostedStep, FreshEvent, Replies.AliasedAtMost;
  }

  lemma DenyPassGoesOn(s: State, event: EventId)
    requires DenyPostedStep(s, event).Some?
    ensures var u, root := DenyPostedStep(s, event).value, s.pass.row.root;
            && s.pass.Denying?
            && u.pass == if event == "" || event in s.db.aliases || root in s.db.sessions
                         then Acting(s.pass.todo, s.pass.states) else Resting
  {
    hide FreshEvent, Logged;
  }
}
