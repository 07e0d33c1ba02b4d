// No turn is resumed without the operator's approval, nor for an approval that
// was settled before its turn looked for one.
module Consent {
  import opened Prelude
  import opened Store
  import opened Dispatching
  import opened Framing
  import opened Locking
  import opened Approvals

  predicate ApprovedIn(s: State, a: ApprovalId) {
    a in s.approvals && s.approvals[a].state == ApprovedApproval
  }

  // What the reconcile loop acts on has been approved: seen is what was so far.
  ghost predicate ConsentInv(s: State, seen: iset<ApprovalId>) {
    && (s.pass.Acting? || s.pass.Resuming? || s.pass.Denying? ==>
          forall a | a in s.pass.states && s.pass.states[a] == ApprovedApproval :: a in seen)
    && (forall t | t in s.tasks && s.tasks[t].origin.Approved? :: s.tasks[t].origin.approval in seen)
    && (forall i | 0 <= i < |s.h.launches| && s.h.launches[i].origin.Approved? ::
          s.h.launches[i].origin.approval in seen)
  }

  ghost function NowSeen(s: State, seen: iset<ApprovalId>): iset<ApprovalId> {
    iset a | a in seen || ApprovedIn(s, a)
  }

  lemma QuietKeepsConsent(s: State, u: State, tid: TaskId, seen: iset<ApprovalId>)
    requires ConsentInv(s, seen) && Quiet(s, u, tid)
    ensures ConsentInv(u, seen)
  {
  }

  lemma StartKeepsConsent(s: State, tid: TaskId, locks: map<RoomId, TaskId>, seen: iset<ApprovalId>)
    requires ConsentInv(s, seen) && tid in s.tasks
    ensures ConsentInv(StartTurn(s.(locks := locks), tid), seen)
  {
    var u := StartTurn(s.(locks := locks), tid);
    forall i | 0 <= i < |u.h.launches| && u.h.launches[i].origin.Approved?
      ensures u.h.launches[i].origin.approval in seen
    {
      if i < |s.h.launches| {
        assert u.h.launches[i] == s.h.launches[i];
      }
    }
  }

  lemma StartsKeepConsent(s: State, step: Step, s': State, seen: iset<ApprovalId>)
    requires ConsentInv(s, seen) && Next(s, step) == Some(s') && (step.Registered? || step.Acquire?)
    requires !IsQuietStep(s, step)
    ensures ConsentInv(s', seen)
  {
    hide ConsentInv;
    match step
    case Registered(tid) =>
      assert s.(locks := s.locks) == s;
      StartKeepsConsent(s, tid, s.locks, seen);
    case Acquire(tid, wall, id) => StartKeepsConsent(s, tid, s.locks[s.tasks[tid].room := tid], seen);
  }

  // No task takes up an approval and no turn starts.
  lemma IdleKeepsConsent(s: State, u: State, seen: iset<ApprovalId>)
    requires ConsentInv(s, seen) && u.h.launches == s.h.launches
    requires forall t | t in u.tasks && u.tasks[t].origin.Approved? ::
               t in s.tasks && u.tasks[t].origin == s.tasks[t].origin
    requires u.pass == s.pass || u.pass.Resting? || u.pass.Fetching?
    ensures ConsentInv(u, seen)
  {
  }

  lemma FetchedKeepsConsent(s: State, states: map<ApprovalId, ApprovalState>, seen: iset<ApprovalId>)
    requires ConsentInv(s, seen) && PassFetchedStep(s, states).Some?
    ensures ConsentInv(PassFetchedStep(s, states).value, NowSeen(s, seen))
  {
  }

  lemma PassActKeepsConsent(s: State, seen: iset<ApprovalId>)
    requires ConsentInv(s, seen) && PassActStep(s).Some?
    ensures ConsentInv(PassActStep(s).value, seen)
  {
    hide ConsentInv, Claim, Drop, Deny;
    if s.pass.todo == [] {
      IdleKeepsConsent(s, s.(pass := Resting), seen);
    } else {
      PassActCasesKeepConsent(s, s.pass.todo[0], s.pass.todo[1..], seen);
    }
  }

  lemma PassActCasesKeepConsent(s: State, row: Pending, rest: seq<Pending>, seen: iset<ApprovalId>)
    requires ConsentInv(s, seen) && s.pass.Acting?
    ensures ConsentInv(Drop(s, row, rest, s.pass.states), seen) && ConsentInv(Deny(s, row, rest, s.pass.states), seen)
    ensures ConsentInv(s.(pass := Acting(rest, s.pass.states)), seen)
    ensures Decided(row, s.pass.states, ApprovedApproval) ==> ConsentInv(Claim(s, row, rest, s.pass.states), seen)
  {
    hide DeletePending;
  }

  lemma MoreSeen(s: State, u: State, seen: iset<ApprovalId>)
    requires ConsentInv(u, seen)
    ensures ConsentInv(u, NowSeen(s, seen))
  {
  }

  lemma DenyPostedKeepsConsent(s: State, event: EventId, seen: iset<ApprovalId>)
    requires ConsentInv(s, seen) && DenyPostedStep(s, event).Some?
    ensures ConsentInv(DenyPostedStep(s, event).value, seen)
  {
    DenyPostedMovesNothing(s, event);
    hide DenyPostedStep;
  }

  // Steps that neither move a turn nor start one.
  lemma OuterStartsNothing(s: State, step: Step, s': State)
    requires Next(s, step) == Some(s') && (IsOuterStep(step) || step.Dispatch? || step.Crash?)
    ensures s'.h.launches == s.h.launches && s'.h.recorded == s.h.recorded
    ensures forall t | t in s'.tasks :: (t in s.tasks && s'.tasks[t] == s.tasks[t]) ||
                                        (s'.tasks[t].phase.Routing? && s'.tasks[t].origin == Utility)
  {
    hide Listing, Live, WithoutExpired, StatesAnswer, Cleanup, Watcher, RunnerIn;
  }

  lemma QueryKeepsConsent(s: State, tid: TaskId, found: Option<ApprovalId>, seen: iset<ApprovalId>)
    requires ConsentInv(s, seen) && QueryStep(s, tid, found).Some?
    ensures ConsentInv(QueryStep(s, tid, found).value, seen)
  {
    hide ConsentInv, QueryAnswer;
    IdleKeepsConsent(s, QueryStep(s, tid, found).value, seen);
  }

  lemma RecordKeepsConsent(s: State, tid: TaskId, tool: string, now: int, seen: iset<ApprovalId>)
    requires ConsentInv(s, seen) && RecordStep(s, tid, tool, now).Some? && s.tasks[tid].phase.found.Some?
    ensures ConsentInv(RecordStep(s, tid, tool, now).value, seen)
  {
    hide ConsentInv;
    IdleKeepsConsent(s, RecordStep(s, tid, tool, now).value, seen);
  }

  // The steps that are not quiet record an approval that was found.
  lemma LoudRecordFinds(s: State, tid: TaskId, tool: string, now: int)
    requires RecordStep(s, tid, tool, now).Some? && !IsQuietStep(s, Record(tid, tool, now))
    ensures s.tasks[tid].phase.Queried? && s.tasks[tid].phase.found.Some?
  {
  }

  lemma NotQuietIsOuter(s: State, step: Step)
    requires !IsQuietStep(s, step) && !step.Registered? && !step.Acquire? && !step.Query? && !step.Record?
    requires !step.PassAct? && !step.DenyPosted?
    ensures IsOuterStep(step) || step.Dispatch? || step.Crash?
  {
  }

  lemma ConsentInvStep(s: State, step: Step, s': State, seen: iset<ApprovalId>)
    requires LockInv(s) && ConsentInv(s, seen) && Next(s, step) == Some(s')
    ensures ConsentInv(s', NowSeen(s, seen))
  {
    if IsQuietStep(s, step) {
      QuietSteps(s, step, s');
      hide LockInv, ConsentInv, Quiet, Next, NowSeen;
      QuietKeepsConsent(s, s', step.tid, seen);
      MoreSeen(s, s', seen);
    } else if step.PassFetched? {
      FetchedKeepsConsent(s, step.states, seen);
    } else {
      hide LockInv, ConsentInv, NowSeen, DispatchStep, RouteStep, PostedStep, RegisteredStep, AcquireStep,
           LaunchedStep, ExitedStep, TimedOutStep, ReapedStep, FailedStep, QueryStep, RecordStep, LinkedStep,
           CancelStep, AbortStep, PassBeginStep, PassFetchedStep, PassActStep, DenyPostedStep, PassAbortStep,
           CrashStep, RaiseStep, SettleStep, TranscriptStep;
      match step {
        case Registered(tid) => StartsKeepConsent(s, step, s', seen);
        case Acquire(tid, wall, id) => StartsKeepConsent(s, step, s', seen);
        case Query(tid, found) => QueryKeepsConsent(s, tid, found, seen);
        case Record(tid, tool, now) =>
          LoudRecordFinds(s, tid, tool, now);
          RecordKeepsConsent(s, tid, tool, now, seen);
        case PassAct => PassActKeepsConsent(s, seen);
        case DenyPosted(event) => DenyPostedKeepsConsent(s, event, seen);
        case _ =>
          NotQuietIsOuter(s, step);
          OuterKeepsConsent(s, step, s', seen);
      }
      MoreSeen(s, s', seen);
    }
  }

  lemma OuterKeepsConsent(s: State, step: Step, s': State, seen: iset<ApprovalId>)
    requires ConsentInv(s, seen) && Next(s, step) == Some(s')
    requires (IsOuterStep(step) && !step.PassFetched?) || step.Dispatch? || step.Crash?
    ensures ConsentInv(s', seen)
  {
    OuterStartsNothing(s, step, s');
    hide ConsentInv, Listing, Live, WithoutExpired, Cleanup, Watcher, RunnerIn;
    assert s'.pass == s.pass || s'.pass.Resting? || s'.pass.Fetching?;
    hide Next;
    IdleKeepsConsent(s, s', seen);
  }

  ghost predicate EverApproved(states: seq<State>, n: nat, a: ApprovalId)
    requires n <= |states|
  {
    exists m :: 0 <= m < n && ApprovedIn(states[m], a)
  }

  // What was approved in one of the first n states.
  ghost function SeenBefore(states: seq<State>, n: nat): iset<ApprovalId>
    requires n <= |states|
  {
    iset a | EverApproved(states, n, a)
  }

  lemma {:induction false} ConsentInvAlways(states: seq<State>, steps: seq<Step>, n: nat)
    requires Run(states, steps) && n < |states|
    ensures ConsentInv(states[n], SeenBefore(states, n))
  {
    hide Next, LockInv;
    if n > 0 {
      ConsentInvAlways(states, steps, n - 1);
      LockInvAlways(states, steps, n - 1);
      ConsentInvStep(states[n - 1], steps[n - 1], states[n], SeenBefore(states, n - 1));
      assert SeenBefore(states, n) == NowSeen(states[n - 1], SeenBefore(states, n - 1));
    }
  }

  // Whenever claude has been started on behalf of an approval, the registry had
  // it as approved in an earlier state.
  lemma NoResumeWithoutApproval(states: seq<State>, steps: seq<Step>, n: nat, i: nat)
    requires Run(states, steps) && n < |states|
    requires i < |states[n].h.launches| && states[n].h.launches[i].origin.Approved?
    ensures exists m :: 0 <= m < n && ApprovedIn(states[m], states[n].h.launches[i].origin.approval)
  {
    ConsentInvAlways(states, steps, n);
  }

  // ----- The duplicate-execution guard -----

  // The approval is settled and nobody is about to record it.
  ghost predicate SettledUnrecorded(s: State, a: ApprovalId) {
    && a in s.approvals && s.approvals[a].state != PendingApproval
    && a !in s.h.recorded
    && forall t | t in s.tasks && s.tasks[t].phase.Queried? :: s.tasks[t].phase.found != Some(a)
  }

  lemma QuietKeepsSettled(s: State, u: State, tid: TaskId, a: ApprovalId)
    requires SettledUnrecorded(s, a) && Quiet(s, u, tid)
    ensures SettledUnrecorded(u, a)
  {
  }

  lemma QueryKeepsSettled(s: State, tid: TaskId, found: Option<ApprovalId>, a: ApprovalId)
    requires SettledUnrecorded(s, a) && QueryStep(s, tid, found).Some?
    ensures SettledUnrecorded(QueryStep(s, tid, found).value, a)
  {
  }

  lemma RecordKeepsSettled(s: State, tid: TaskId, tool: string, now: int, a: ApprovalId)
    requires SettledUnrecorded(s, a) && RecordStep(s, tid, tool, now).Some? && s.tasks[tid].phase.found.Some?
    ensures SettledUnrecorded(RecordStep(s, tid, tool, now).value, a)
  {
  }

  lemma StartKeepsSettled(s: State, step: Step, s': State, a: ApprovalId)
    requires SettledUnrecorded(s, a) && Next(s, step) == Some(s') && (step.Registered? || step.Acquire?)
    requires !IsQuietStep(s, step)
    ensures SettledUnrecorded(s', a)
  {
    hide FreshSession, StampsOf, LastSpawn;
    match step
    case Registered(tid) =>
    case Acquire(tid, _, _) =>
  }

  // Nobody looks up or records an approval.
  lemma IdleKeepsSettled(s: State, u: State, a: ApprovalId)
    requires SettledUnrecorded(s, a) && u.h.recorded == s.h.recorded
    requires a in u.approvals && u.approvals[a].state != PendingApproval
    requires forall t | t in u.tasks && u.tasks[t].phase.Queried? ::
               t in s.tasks && u.tasks[t].phase == s.tasks[t].phase
    ensures SettledUnrecorded(u, a)
  {
  }

  lemma SettledStep(s: State, step: Step, s': State, a: ApprovalId)
    requires LockInv(s) && SettledUnrecorded(s, a) && Next(s, step) == Some(s')
    ensures SettledUnrecorded(s', a)
  {
    if IsQuietStep(s, step) {
      QuietSteps(s, step, s');
      hide LockInv, SettledUnrecorded, Quiet, Next;
      QuietKeepsSettled(s, s', step.tid, a);
    } else {
      hide LockInv, SettledUnrecorded, IsQuietStep, DispatchStep, RouteStep, PostedStep, RegisteredStep, AcquireStep,
           LaunchedStep, ExitedStep, TimedOutStep, ReapedStep, FailedStep, QueryStep, RecordStep, LinkedStep,
           CancelStep, AbortStep, PassBeginStep, PassFetchedStep, PassActStep, DenyPostedStep, PassAbortStep,
           CrashStep, RaiseStep, SettleStep, TranscriptStep;
      match step
      case Registered(tid) => StartKeepsSettled(s, step, s', a);
      case Acquire(tid, wall, id) => StartKeepsSettled(s, step, s', a);
      case Query(tid, found) => QueryKeepsSettled(s, tid, found, a);
      case Record(tid, tool, now) =>
        LoudRecordFinds(s, tid, tool, now);
        RecordKeepsSettled(s, tid, tool, now, a);
      case PassAct => PassActKeepsSettled(s, a);
      case DenyPosted(event) => DenyPostedKeepsSettled(s, event, a);
      case _ =>
        NotQuietIsOuter(s, step);
        OuterKeepsSettled(s, step, s', a);
    }
  }

  lemma PassActKeepsSettled(s: State, a: ApprovalId)
    requires SettledUnrecorded(s, a) && PassActStep(s).Some?
    ensures SettledUnrecorded(PassActStep(s).value, a)
  {
    hide Claim, Drop, Deny;
    if s.pass.todo == [] {
      IdleKeepsSettled(s, s.(pass := Resting), a);
    } else {
      PassActCasesKeepSettled(s, s.pass.todo[0], s.pass.todo[1..], s.pass.states, a);
    }
  }

  lemma PassActCasesKeepSettled(s: State, row: Pending, rest: seq<Pending>, states: map<ApprovalId, ApprovalState>,
                                a: ApprovalId)
    requires SettledUnrecorded(s, a)
    ensures SettledUnrecorded(Drop(s, row, rest, states), a) && SettledUnrecorded(Deny(s, row, rest, states), a)
    ensures SettledUnrecorded(s.(pass := Acting(rest, states)), a) && SettledUnrecorded(Claim(s, row, rest, states), a)
  {
    hide DeletePending;
  }

  lemma DenyPostedKeepsSettled(s: State, event: EventId, a: ApprovalId)
    requires SettledUnrecorded(s, a) && DenyPostedStep(s, event).Some?
    ensures SettledUnrecorded(DenyPostedStep(s, event).value, a)
  {
    DenyPostedMovesNothing(s, event);
    hide DenyPostedStep;
  }

  // A settled approval stays settled.
  lemma OuterKeepsSettled(s: State, step: Step, s': State, a: ApprovalId)
    requires SettledUnrecorded(s, a) && Next(s, step) == Some(s')
    requires IsOuterStep(step) || step.Dispatch? || step.Crash?
    ensures SettledUnrecorded(s', a)
  {
    OuterStartsNothing(s, step, s');
    assert a in s'.approvals && s'.approvals[a].state != PendingApproval by {
      hide Listing, Live, WithoutExpired, StatesAnswer, Cleanup, Watcher, RunnerIn;
    }
    hide Next;
  }

  // An approval that is settled before a turn looks for it, as when the agent
  // got its answer during the turn, is never recorded and never resumed.
  lemma {:induction false} SettledInTurnIsNeverResumed(states: seq<State>, steps: seq<Step>, m: nat, n: nat,
                                                       a: ApprovalId)
    requires Run(states, steps) && m <= n < |states| && SettledUnrecorded(states[m], a)
    ensures SettledUnrecorded(states[n], a) && a !in states[n].db.pending
    ensures forall i | 0 <= i < |states[n].h.launches| :: states[n].h.launches[i].origin != Approved(a)
  {
    hide Next, LockInv;
    if m < n {
      SettledInTurnIsNeverResumed(states, steps, m, n - 1, a);
      LockInvAlways(states, steps, n - 1);
      SettledStep(states[n - 1], steps[n - 1], states[n], a);
    }
    ApprovalInvAlways(states, steps, n);
    assert ApprovalOk(states[n], a) && LaunchesOk(states[n]);
  }
}
