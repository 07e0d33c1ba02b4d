// The spawn rate limit, over whole runs and any interleaving of handlers.
module RateLimit {
  import opened Prelude
  import opened Store
  import opened Dispatching
  import opened Locking
  import opened Bookkeeping

  // Consecutive stamps are at least RATE_LIMIT_SECONDS apart.
  predicate Spaced(stamps: seq<real>) {
    forall i | 0 <= i < |stamps| - 1 :: stamps[i + 1] - stamps[i] >= RATE_LIMIT_SECONDS
  }

  // The room's entry is the latest stamp of this process.
  ghost predicate StampInv(s: State) {
    forall r :: var stamps := StampsOf(s.h, r);
      && Spaced(stamps)
      && (stamps != [] ==> r in s.lastSpawn && s.lastSpawn[r] == stamps[|stamps| - 1])
  }

  lemma SameStamps(s: State, u: State)
    requires StampInv(s) && u.lastSpawn == s.lastSpawn && u.h.stamps == s.h.stamps
    ensures StampInv(u)
  {
    assert forall r :: StampsOf(u.h, r) == StampsOf(s.h, r);
  }

  lemma AdmitKeepsStamps(s: State, u: State, room: RoomId, wall: real)
    requires StampInv(s) && wall - LastSpawn(s.lastSpawn, room) >= RATE_LIMIT_SECONDS
    requires u.lastSpawn == s.lastSpawn[room := wall]
    requires u.h.stamps == s.h.stamps[room := StampsOf(s.h, room) + [wall]]
    ensures StampInv(u)
  {
    var before := StampsOf(s.h, room);
    forall r
      ensures var stamps := StampsOf(u.h, r);
              Spaced(stamps) && (stamps != [] ==> r in u.lastSpawn && u.lastSpawn[r] == stamps[|stamps| - 1])
    {
      assert Spaced(StampsOf(s.h, r));
    }
  }

  lemma AcquireKeepsStamps(s: State, tid: TaskId, wall: real, id: SessionId)
    requires StampInv(s) && AcquireStep(s, tid, wall, id).Some?
    ensures StampInv(AcquireStep(s, tid, wall, id).value)
  {
    hide StampInv, FreshSession, LastSpawn, StampsOf;
    var u, room := AcquireStep(s, tid, wall, id).value, s.tasks[tid].room;
    if s.tasks[tid].origin == Spawned && wall - LastSpawn(s.lastSpawn, room) >= RATE_LIMIT_SECONDS {
      AdmitKeepsStamps(s, u, room, wall);
    } else {
      SameStamps(s, u);
    }
  }

  lemma MirrorStampsNothing(s: State, tid: TaskId, m: Message, pick: Option<SessionId>, now: int)
    requires tid in s.tasks && MirrorStep(s, tid, m, pick, now).Some?
    ensures var u := MirrorStep(s, tid, m, pick, now).value; u.lastSpawn == s.lastSpawn && u.h.stamps == s.h.stamps
  {
    hide Unlocked, Unmirrored, InsertSession;
  }

  lemma RouteStampsNothing(s: State, tid: TaskId, pick: Option<SessionId>, items: seq<Listed>, posts: nat, now: int)
    requires RouteStep(s, tid, pick, items, posts, now).Some? && !InsertsNothing(s.tasks[tid].phase.message)
    ensures var u := RouteStep(s, tid, pick, items, posts, now).value;
            u.lastSpawn == s.lastSpawn && u.h.stamps == s.h.stamps
  {
    hide MirrorStep, Finish, RowsOfRoom, GetSessionByEvent;
    var m := s.tasks[tid].phase.message;
    if m.command.MirrorCommand? {
      MirrorStampsNothing(s, tid, m, pick, now);
    }
  }

  lemma SpawnAckedStampsNothing(s: State, tid: TaskId, event: EventId, now: int)
    requires PostedStep(s, tid, event, now).Some? && s.tasks[tid].phase.SpawnAcking?
    ensures var u := PostedStep(s, tid, event, now).value; u.lastSpawn == s.lastSpawn && u.h.stamps == s.h.stamps
  {
    hide Unlocked, FreshEvent, RegisterAlias, InsertSession;
  }

  lemma NotableStampsNothing(s: State, step: Step, s': State)
    requires Notable(s, step) && Next(s, step) == Some(s') && !step.Acquire? && !step.Crash?
    ensures s'.lastSpawn == s.lastSpawn && s'.h.stamps == s.h.stamps
  {
    hide RouteStep, PostedStep, Cleanup;
    match step
    case Route(tid, pick, items, posts, now) => RouteStampsNothing(s, tid, pick, items, posts, now);
    case Posted(tid, event, now) => SpawnAckedStampsNothing(s, tid, event, now);
    case _ =>
  }

  // Nothing but an admitted spawn stamps a room, and only a restart forgets the stamps.
  lemma OthersStampNothing(s: State, step: Step, s': State)
    requires LockInv(s) && Next(s, step) == Some(s') && !step.Acquire? && !step.Crash?
    ensures s'.lastSpawn == s.lastSpawn && s'.h.stamps == s.h.stamps
  {
    if Notable(s, step) {
      NotableStampsNothing(s, step, s');
    } else {
      hide LockInv, Next, Notable;
      StepSettles(s, step, s');
    }
  }

  lemma StampInvStep(s: State, step: Step, s': State)
    requires LockInv(s) && StampInv(s) && Next(s, step) == Some(s')
    ensures StampInv(s')
  {
    hide LockInv, StampInv;
    if step.Acquire? {
      AcquireKeepsStamps(s, step.tid, step.wall, step.session);
    } else if step.Crash? {
      NoStamps(s');
    } else {
      OthersStampNothing(s, step, s');
      SameStamps(s, s');
    }
  }

  lemma NoStamps(s: State)
    requires s.h.stamps == map[]
    ensures StampInv(s)
  {
  }

  lemma {:induction false} StampInvAlways(states: seq<State>, steps: seq<Step>, n: nat)
    requires Run(states, steps) && n < |states|
    ensures StampInv(states[n])
  {
    hide StampInv, Next;
    if n == 0 {
      NoStamps(states[0]);
    } else {
      StampInvAlways(states, steps, n - 1);
      LockInvAlways(states, steps, n - 1);
      StampInvStep(states[n - 1], steps[n - 1], states[n]);
    }
  }

  lemma {:induction false} SpacedApart(stamps: seq<real>, i: nat, j: nat)
    requires Spaced(stamps) && i <= j < |stamps|
    ensures stamps[j] - stamps[i] >= RATE_LIMIT_SECONDS * (j - i) as real
  {
    if i < j {
      SpacedApart(stamps, i, j - 1);
      assert stamps[j - 1 + 1] - stamps[j - 1] >= RATE_LIMIT_SECONDS;
    }
  }

  // In one process lifetime, whatever the handlers and the clock do, admitted
  // spawns of a room carry increasing stamps, ten seconds or more from one to the next.
  lemma SpawnsAreSpaced(states: seq<State>, steps: seq<Step>, n: nat, room: RoomId, i: nat, j: nat)
    requires Run(states, steps) && n < |states|
    requires i <= j < |StampsOf(states[n].h, room)|
    ensures StampsOf(states[n].h, room)[j] - StampsOf(states[n].h, room)[i] >= 10.0 * (j - i) as real
  {
    StampInvAlways(states, steps, n);
    SpacedApart(StampsOf(states[n].h, room), i, j);
  }

  // How many stamps lie between from and from + width.
  function InWindow(stamps: seq<real>, from: real, width: real): nat {
    if stamps == [] then 0
    else (if from <= stamps[0] <= from + width then 1 else 0) + InWindow(stamps[1..], from, width)
  }

  lemma {:induction false} PastWindow(stamps: seq<real>, from: real, width: real)
    requires Spaced(stamps) && (stamps != [] ==> stamps[0] > from + width)
    ensures InWindow(stamps, from, width) == 0
  {
    if |stamps| > 1 {
      assert stamps[1] - stamps[0] >= RATE_LIMIT_SECONDS;
      RestSpaced(stamps);
      PastWindow(stamps[1..], from, width);
    }
  }

  lemma RestSpaced(stamps: seq<real>)
    requires Spaced(stamps) && stamps != []
    ensures Spaced(stamps[1..])
  {
    forall i | 0 <= i < |stamps[1..]| - 1 ensures stamps[1..][i + 1] - stamps[1..][i] >= RATE_LIMIT_SECONDS {
      assert stamps[i + 2] == stamps[i + 1 + 1];
    }
  }

  // From a stamp inside the window on, each further one uses up ten seconds of it.
  lemma {:induction false} WindowFrom(stamps: seq<real>, from: real, width: real)
    requires Spaced(stamps) && stamps != [] && from <= stamps[0] <= from + width
    ensures RATE_LIMIT_SECONDS * (InWindow(stamps, from, width) - 1) as real <= from + width - stamps[0]
  {
    RestSpaced(stamps);
    if |stamps| > 1 {
      assert stamps[0 + 1] - stamps[0] >= RATE_LIMIT_SECONDS;
      if stamps[1] <= from + width {
        WindowFrom(stamps[1..], from, width);
      } else {
        PastWindow(stamps[1..], from, width);
      }
    } else {
      assert InWindow(stamps[1..], from, width) == 0;
    }
  }

  lemma {:induction false} WindowCount(stamps: seq<real>, from: real, width: real)
    requires Spaced(stamps) && width >= 0.0
    ensures InWindow(stamps, from, width) <= (width / RATE_LIMIT_SECONDS).Floor + 1
  {
    if stamps != [] {
      if from <= stamps[0] <= from + width {
        WindowFrom(stamps, from, width);
        var n := InWindow(stamps, from, width) - 1;
        assert n as real <= width / RATE_LIMIT_SECONDS;
      } else {
        RestSpaced(stamps);
        WindowCount(stamps[1..], from, width);
      }
    }
  }

  // So a window of width seconds holds at most floor(width / 10) + 1 of them.
  lemma SpawnsPerWindow(states: seq<State>, steps: seq<Step>, n: nat, room: RoomId, from: real, width: real)
    requires Run(states, steps) && n < |states| && width >= 0.0
    ensures InWindow(StampsOf(states[n].h, room), from, width) <= (width / 10.0).Floor + 1
  {
    StampInvAlways(states, steps, n);
    WindowCount(StampsOf(states[n].h, room), from, width);
  }
}
