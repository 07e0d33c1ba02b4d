// runner.py on its own dictionaries: the spawn rate limit, the life of one
// claude process, and how !cancel finds it.
module Runner {
  import opened Prelude
  import opened Store
  import opened Dispatching

  const STDERR_LIMIT: nat := 500
  const CANCEL_REGISTRATION_WAIT_SECONDS: real := 1.0
  const CANCEL_POLL_INTERVAL_SECONDS: real := 0.05

  // stderr[:500]
  function Shortened(stderr: string): string {
    if |stderr| <= STDERR_LIMIT then stderr else stderr[..STDERR_LIMIT]
  }

  // How waiting for a process ends.
  datatype Outcome = Exits(code: Option<int>, stdout: string, stderr: string) | TimesOut | Breaks

  datatype RunError = NotStarted | RanOut | Broken

  class Runtime {
    var active: map<RoomId, Proc>
    var lastSpawn: map<RoomId, real>
    // Processes that were killed, in order.
    var killed: seq<Proc>

    constructor ()
      ensures active == map[] && lastSpawn == map[] && killed == []
    {
      active, lastSpawn, killed := map[], map[], [];
    }

    // The check and the stamp, under the room's lock.
    method AdmitSpawn(room: RoomId, now: real) returns (admitted: bool)
      modifies this`lastSpawn
      ensures admitted <==> now - (if room in old(lastSpawn) then old(lastSpawn)[room] else 0.0) >= 10.0
      ensures lastSpawn == if admitted then old(lastSpawn)[room := now] else old(lastSpawn)
    {
      var last := if room in lastSpawn then lastSpawn[room] else 0.0;
      if now - last < RATE_LIMIT_SECONDS {
        return false;
      }
      lastSpawn := lastSpawn[room := now];
      return true;
    }

    // What other turns do to the table while this one waits.
    method OthersRun(changes: map<RoomId, Option<Proc>>)
      modifies this`active
      ensures forall r :: r in active <==> if r in changes then changes[r].Some? else r in old(active)
      ensures forall r | r in active :: active[r] == if r in changes then changes[r].value else old(active)[r]
    {
      active := map r | r in active.Keys + changes.Keys && (if r in changes then changes[r].Some? else r in active) ::
        if r in changes then changes[r].value else active[r];
    }

    // _run_claude, given the process that create_subprocess_exec returns, if it
    // does, and how that ends. The turn holds its room's lock, so other turns
    // are in other rooms. Whichever way it leaves, the room's entry is gone and
    // no other is touched, and a process that ran out of time was killed.
    method RunClaude(room: RoomId, started: Option<Proc>, outcome: Outcome, others: map<RoomId, Option<Proc>>)
      returns (result: Result<(int, string), RunError>, ghost seen: map<RoomId, Proc>)
      requires room !in active && room !in others
      modifies this`active, this`killed
      ensures room !in active
      ensures started.None? ==> result == Err(NotStarted) && active == old(active) && killed == old(killed)
      ensures started.Some? ==>
                && seen == old(active)[room := started.value]
                && (forall r | r != room :: r in active <==> if r in others then others[r].Some? else r in old(active))
                && (forall r | r in active :: active[r] == if r in others then others[r].value else old(active)[r])
                && killed == old(killed) + (if outcome.TimesOut? then [started.value] else [])
                && match outcome
                   case TimesOut => result == Err(RanOut)
                   case Breaks => result == Err(Broken)
                   case Exits(code, stdout, stderr) =>
                     var rc := if code.Some? then code.value else -1;
                     && result.Ok? && result.value.0 == rc
                     && if rc == 0 then result.value.1 == stdout
                        else result.value.1 == stderr[..if |stderr| <= 500 then |stderr| else 500]
    {
      seen := map[];
      if started.None? {
        return Err(NotStarted), seen;
      }
      active := active[room := started.value];
      seen := active;
      OthersRun(others);
      match outcome {
        case TimesOut =>
          killed := killed + [started.value];
          active := active - {room};
          return Err(RanOut), seen;
        case Breaks =>
          active := active - {room};
          return Err(Broken), seen;
        case Exits(code, stdout, stderr) =>
          active := active - {room};
          var rc := if code.Some? then code.value else -1;
          if rc == 0 {
            return Ok((rc, stdout)), seen;
          }
          return Ok((rc, Shortened(stderr))), seen;
      }
    }
  }

  // The state machine's Acquire step admits and stamps a spawn as AdmitSpawn does.
  lemma AcquireAdmits(s: State, tid: TaskId, wall: real, id: SessionId, u: State)
    requires Next(s, Acquire(tid, wall, id)) == Some(u) && tid in s.tasks && s.tasks[tid].origin == Spawned
    ensures tid in u.tasks
    ensures var room := s.tasks[tid].room;
            var admitted := wall - (if room in s.lastSpawn then s.lastSpawn[room] else 0.0) >= 10.0;
            && u.lastSpawn == (if admitted then s.lastSpawn[room := wall] else s.lastSpawn)
            && (u.tasks[tid].phase.SpawnAcking? <==> admitted)
            && (u.tasks[tid].phase.Declining? <==> !admitted)
  {
    hide FreshSession, StampsOf;
  }

  // The wait of handle_cancel_command for a process that is only just being
  // started; look(k) is the room's registered process after k waits. It returns
  // the first process that is seen. Without one it gives up: at once if nobody
  // holds the room's lock, and else as soon as wait seconds have gone by.
  method FindProcess(look: nat -> Option<Proc>, lockHeld: bool, wait: real, interval: real)
    returns (proc: Option<Proc>, looks: nat)
    requires interval > 0.0
    ensures proc == look(looks) && forall k: nat | k < looks :: look(k).None?
    ensures !lockHeld ==> looks == 0
    ensures proc.None? && lockHeld ==> looks as real * interval >= wait
    ensures looks > 0 ==> (looks - 1) as real * interval < wait
  {
    proc, looks := look(0), 0;
    if proc.None? && lockHeld {
      var elapsed := 0.0;
      ghost var limit := if wait > 0.0 then (wait / interval).Floor + 1 else 0;
      while elapsed < wait
        invariant elapsed == looks as real * interval
        invariant proc == look(looks) && proc.None? && forall k: nat | k < looks :: look(k).None?
        invariant looks > 0 ==> (looks - 1) as real * interval < wait
        decreases limit - looks
      {
        StillWaiting(looks, wait, interval);
        elapsed := elapsed + interval;
        looks := looks + 1;
        proc := look(looks);
        if proc.Some? {
          break;
        }
      }
    }
  }

  lemma StillWaiting(looks: nat, wait: real, interval: real)
    requires interval > 0.0 && looks as real * interval < wait
    ensures wait > 0.0 && looks < (wait / interval).Floor + 1
    ensures (looks + 1) as real * interval == looks as real * interval + interval
  {
    assert looks as real < wait / interval;
  }

  // With the configured times, that is twenty waits at most.
  method FindProcessToCancel(look: nat -> Option<Proc>, lockHeld: bool) returns (proc: Option<Proc>, looks: nat)
    ensures looks <= 20 && proc == look(looks) && forall k: nat | k < looks :: look(k).None?
    ensures proc.None? ==> looks == if lockHeld then 20 else 0
  {
    proc, looks := FindProcess(look, lockHeld, CANCEL_REGISTRATION_WAIT_SECONDS, CANCEL_POLL_INTERVAL_SECONDS);
  }
}
