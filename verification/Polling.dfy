// poll_loop: the sync token is stored before the events it covers are
// dispatched, over restarts, failed syncs and failed writes.
module Polling {
  import opened Prelude
  import opened Store
  import opened Databases

  // The homeserver's events in order; a sync token is a position in them.
  datatype RoomEvent = RoomEvent(room: RoomId, isText: bool)
  type Stream = seq<RoomEvent>

  // A joined room's timeline in a sync response, as positions in the stream.
  datatype Joined = Joined(room: RoomId, timeline: seq<nat>)
  datatype SyncReply = SyncError | SyncResponse(next: Token, rooms: seq<Joined>)

  // How writing the token went: it may raise, before or after the commit.
  datatype Write = Written | RaisedUnstored | RaisedStored

  datatype Phase = Down | Seeding | Looping(since: Option<Token>)

  datatype PollState = PollState(
    stream: Stream, agents: set<RoomId>, stored: Option<Token>, phase: Phase, dispatched: seq<nat>)

  function From(since: Option<Token>): nat {
    if since.Some? then since.value else 0
  }

  // What the homeserver may answer: each room once, with events of its own
  // between the two tokens, in order; some may be missing.
  predicate AnswerOk(stream: Stream, since: Option<Token>, reply: SyncReply) {
    reply.SyncResponse? ==>
      && From(since) <= reply.next <= |stream|
      && (forall i, j | 0 <= i < j < |reply.rooms| :: reply.rooms[i].room != reply.rooms[j].room)
      && forall i | 0 <= i < |reply.rooms| ::
           TimelineOk(stream, reply.rooms[i].room, From(since), reply.next, reply.rooms[i].timeline)
  }

  predicate TimelineOk(stream: Stream, room: RoomId, from: nat, until: nat, timeline: seq<nat>) {
    && (forall k | 0 <= k < |timeline| ::
          from <= timeline[k] < until && timeline[k] < |stream| && stream[timeline[k]].room == room)
    && forall j, k | 0 <= j < k < |timeline| :: timeline[j] < timeline[k]
  }

  // The text messages among the events at these positions.
  function Texts(stream: Stream, timeline: seq<nat>): seq<nat> {
    if timeline == [] then []
    else Texts(stream, timeline[..|timeline| - 1]) +
         var p := timeline[|timeline| - 1]; if p < |stream| && stream[p].isText then [p] else []
  }

  // The messages a response makes the loop dispatch, in order.
  function Dispatches(stream: Stream, agents: set<RoomId>, rooms: seq<Joined>): seq<nat> {
    if rooms == [] then []
    else Dispatches(stream, agents, rooms[..|rooms| - 1]) +
         var last := rooms[|rooms| - 1]; if last.room in agents then Texts(stream, last.timeline) else []
  }

  // ----- The loop, step by step -----

  datatype Step =
    | Append(event: RoomEvent)
    | Start(agents: set<RoomId>)
    | Seed(reply: SyncReply, write: Write)
    | Sync(reply: SyncReply, write: Write)
    | Crash
    | Kill(reply: SyncReply, count: nat)   // dies amid dispatching, after the token is stored

  predicate Init(s: PollState) {
    s.stored == None && s.phase == Down && s.dispatched == []
  }

  // poll_loop begins: with no token it first asks for one.
  function Started(s: PollState, agents: set<RoomId>): PollState {
    s.(agents := agents, phase := if s.stored.None? then Seeding else Looping(s.stored))
  }

  // A failed priming sync leaves the loop without a token; a failed write ends the loop.
  function Seeded(s: PollState, reply: SyncReply, write: Write): PollState {
    match reply
    case SyncError => s.(phase := Looping(None))
    case SyncResponse(next, _) =>
      match write
      case Written => s.(stored := Some(next), phase := Looping(Some(next)))
      case RaisedUnstored => s.(phase := Down)
      case RaisedStored => s.(stored := Some(next), phase := Down)
  }

  // One turn of the loop; an exception is logged, and the loop goes on from the new token.
  function Synced(s: PollState, reply: SyncReply, write: Write): PollState {
    match reply
    case SyncError => s
    case SyncResponse(next, rooms) =>
      var stored := if write.RaisedUnstored? then s.stored else Some(next);
      s.(stored := stored, phase := Looping(Some(next)),
         dispatched := s.dispatched + if write.Written? then Dispatches(s.stream, s.agents, rooms) else [])
  }

  function Killed(s: PollState, next: Token, rooms: seq<Joined>, count: nat): PollState {
    var all := Dispatches(s.stream, s.agents, rooms);
    s.(stored := Some(next), phase := Down, dispatched := s.dispatched + all[..if count <= |all| then count else |all|])
  }

  function Next(s: PollState, step: Step): Option<PollState> {
    match step
    case Append(event) => Some(s.(stream := s.stream + [event]))
    case Start(agents) => if s.phase.Down? then Some(Started(s, agents)) else None
    case Seed(reply, write) =>
      if s.phase.Seeding? && AnswerOk(s.stream, None, reply) then Some(Seeded(s, reply, write)) else None
    case Sync(reply, write) =>
      if s.phase.Looping? && AnswerOk(s.stream, s.phase.since, reply) then Some(Synced(s, reply, write)) else None
    case Crash => Some(s.(phase := Down))
    case Kill(reply, count) =>
      if s.phase.Looping? && reply.SyncResponse? && AnswerOk(s.stream, s.phase.since, reply)
      then Some(Killed(s, reply.next, reply.rooms, count)) else None
  }

  ghost predicate Run(states: seq<PollState>, steps: seq<Step>) {
    && |states| == |steps| + 1
    && Init(states[0])
    && forall i | 0 <= i < |steps| :: Next(states[i], steps[i]) == Some(states[i + 1])
  }

  // ----- Nothing is dispatched twice -----

  predicate Distinct(xs: seq<nat>) {
    forall i, j | 0 <= i < j < |xs| :: xs[i] != xs[j]
  }

  // All that was dispatched lies before the stored token, and the loop never
  // asks for anything before it.
  predicate PollInv(s: PollState) {
    && Distinct(s.dispatched)
    && (s.stored.None? ==> s.dispatched == [])
    && (s.stored.Some? ==> s.stored.value <= |s.stream| && forall p | p in s.dispatched :: p < s.stored.value)
    && (s.phase.Seeding? ==> s.stored.None?)
    && (s.phase.Looping? && s.stored.Some? ==> s.phase.since.Some? && s.stored.value <= s.phase.since.value)
    && (s.phase.Looping? && s.phase.since.Some? ==> s.phase.since.value <= |s.stream|)
  }

  lemma {:induction false} TextsAre(stream: Stream, timeline: seq<nat>)
    ensures forall p :: p in Texts(stream, timeline) <==> p in timeline && p < |stream| && stream[p].isText
  {
    if timeline != [] {
      var init, last := timeline[..|timeline| - 1], timeline[|timeline| - 1];
      TextsAre(stream, init);
      assert timeline == init + [last];
    }
  }

  lemma {:induction false} TextsDistinct(stream: Stream, room: RoomId, from: nat, until: nat, timeline: seq<nat>)
    requires TimelineOk(stream, room, from, until, timeline)
    ensures Distinct(Texts(stream, timeline))
    ensures forall p | p in Texts(stream, timeline) :: from <= p < until && p < |stream| && stream[p].room == room
  {
    TextsAre(stream, timeline);
    if timeline != [] {
      var init, last := timeline[..|timeline| - 1], timeline[|timeline| - 1];
      TextsDistinct(stream, room, from, until, init);
      TextsAre(stream, init);
      assert last !in init;
    }
  }

  lemma {:induction false} DispatchesDistinct(stream: Stream, agents: set<RoomId>, from: nat, until: nat,
                                              rooms: seq<Joined>)
    requires forall i, j | 0 <= i < j < |rooms| :: rooms[i].room != rooms[j].room
    requires forall i | 0 <= i < |rooms| :: TimelineOk(stream, rooms[i].room, from, until, rooms[i].timeline)
    ensures Distinct(Dispatches(stream, agents, rooms))
    ensures forall p | p in Dispatches(stream, agents, rooms) ::
              from <= p < until && p < |stream| && exists i | 0 <= i < |rooms| :: stream[p].room == rooms[i].room
  {
    if rooms != [] {
      var init, last := rooms[..|rooms| - 1], rooms[|rooms| - 1];
      DispatchesDistinct(stream, agents, from, until, init);
      TextsDistinct(stream, last.room, from, until, last.timeline);
      var xs, ys := Dispatches(stream, agents, init), if last.room in agents then Texts(stream, last.timeline) else [];
      assert Dispatches(stream, agents, rooms) == xs + ys;
      forall p | p in xs
        ensures p < |stream| && stream[p].room != last.room
        ensures exists i | 0 <= i < |rooms| :: stream[p].room == rooms[i].room
      {
        var i :| 0 <= i < |init| && stream[p].room == init[i].room;
        assert rooms[i].room == init[i].room;
      }
      forall p | p in ys ensures exists i | 0 <= i < |rooms| :: stream[p].room == rooms[i].room {
        assert stream[p].room == rooms[|rooms| - 1].room;
      }
      DistinctAppend(xs, ys);
    }
  }

  lemma DistinctAppend(xs: seq<nat>, ys: seq<nat>)
    requires Distinct(xs) && Distinct(ys) && forall x, y | x in xs && y in ys :: x != y
    ensures Distinct(xs + ys)
  {
    forall i, j | 0 <= i < j < |xs + ys| ensures (xs + ys)[i] != (xs + ys)[j] {
      if i < |xs| <= j {
        assert (xs + ys)[i] in xs && (xs + ys)[j] in ys;
      }
    }
  }

  // Messages from the loop's token on come after all that was dispatched.
  lemma LaterIsNew(s: PollState, later: seq<nat>)
    requires PollInv(s) && s.phase.Looping? && Distinct(later) && forall p | p in later :: From(s.phase.since) <= p
    ensures Distinct(s.dispatched + later)
  {
    DistinctAppend(s.dispatched, later);
  }

  lemma SyncedKeepsInv(s: PollState, reply: SyncReply, write: Write)
    requires PollInv(s) && s.phase.Looping? && AnswerOk(s.stream, s.phase.since, reply)
    ensures PollInv(Synced(s, reply, write))
  {
    if reply.SyncResponse? {
      DispatchesDistinct(s.stream, s.agents, From(s.phase.since), reply.next, reply.rooms);
      LaterIsNew(s, Dispatches(s.stream, s.agents, reply.rooms));
      hide AnswerOk, Distinct;
    }
  }

  lemma KilledKeepsInv(s: PollState, reply: SyncReply, count: nat)
    requires PollInv(s) && s.phase.Looping? && reply.SyncResponse? && AnswerOk(s.stream, s.phase.since, reply)
    ensures PollInv(Killed(s, reply.next, reply.rooms, count))
  {
    var all := Dispatches(s.stream, s.agents, reply.rooms);
    DispatchesDistinct(s.stream, s.agents, From(s.phase.since), reply.next, reply.rooms);
    var some := all[..if count <= |all| then count else |all|];
    assert forall i | 0 <= i < |some| :: some[i] == all[i];
    assert forall p | p in some :: p in all;
    LaterIsNew(s, some);
    hide AnswerOk, Distinct;
  }

  lemma PollInvStep(s: PollState, step: Step, s': PollState)
    requires PollInv(s) && Next(s, step) == Some(s')
    ensures PollInv(s')
  {
    match step
    case Sync(reply, write) => SyncedKeepsInv(s, reply, write);
    case Kill(reply, count) => KilledKeepsInv(s, reply, count);
    case _ =>
  }

  lemma {:induction false} PollInvAlways(states: seq<PollState>, steps: seq<Step>, n: nat)
    requires Run(states, steps) && n < |states|
    ensures PollInv(states[n])
  {
    if n > 0 {
      PollInvAlways(states, steps, n - 1);
      PollInvStep(states[n - 1], steps[n - 1], states[n]);
    }
  }

  // Over any number of restarts, failed syncs and failed writes, no event is dispatched twice.
  lemma DispatchedAtMostOnce(states: seq<PollState>, steps: seq<Step>, n: nat)
    requires Run(states, steps) && n < |states|
    ensures Distinct(states[n].dispatched)
  {
    PollInvAlways(states, steps, n);
  }

  // ----- A first start skips the backlog -----

  // The loop is past this position, and has never dispatched anything before it.
  predicate Past(s: PollState, start: nat) {
    && (forall p | p in s.dispatched :: start <= p)
    && s.stored.Some? && start <= s.stored.value && !s.phase.Seeding?
    && (s.phase.Looping? ==> s.phase.since.Some? && start <= s.phase.since.value)
  }

  lemma PastStep(s: PollState, step: Step, s': PollState, start: nat)
    requires Past(s, start) && Next(s, step) == Some(s')
    ensures Past(s', start)
  {
    match step
    case Sync(reply, write) =>
      if reply.SyncResponse? {
        DispatchesDistinct(s.stream, s.agents, From(s.phase.since), reply.next, reply.rooms);
      }
    case Kill(reply, count) =>
      var all := Dispatches(s.stream, s.agents, reply.rooms);
      DispatchesDistinct(s.stream, s.agents, From(s.phase.since), reply.next, reply.rooms);
      var some := all[..if count <= |all| then count else |all|];
      assert forall p | p in some :: p in all;
      assert s'.dispatched == s.dispatched + some;
    case _ =>
  }

  lemma {:induction false} PastAlways(states: seq<PollState>, steps: seq<Step>, m: nat, n: nat, start: nat)
    requires Run(states, steps) && m <= n < |states| && Past(states[m], start)
    ensures Past(states[n], start)
    decreases n
  {
    hide Past, Next;
    if m < n {
      PastAlways(states, steps, m, n - 1, start);
      PastStep(states[n - 1], steps[n - 1], states[n], start);
    }
  }

  // A first start takes the token of the priming sync: the loop stores it and goes
  // on from it, and nothing before it is dispatched then or ever after, whatever
  // restarts come. If storing it raises after the commit, that holds as well, and
  // the loop is down; if before, nothing is stored.
  lemma BacklogIsSkipped(states: seq<PollState>, steps: seq<Step>, m: nat, n: nat)
    requires Run(states, steps) && m < n < |states| && steps[m].Seed? && steps[m].reply.SyncResponse?
    ensures var next, after := steps[m].reply.next, states[m + 1];
            match steps[m].write
            case Written => after.stored == Some(next) && after.phase == Looping(Some(next))
            case RaisedStored => after.stored == Some(next) && after.phase == Down
            case RaisedUnstored => after.stored == None && after.phase == Down
    ensures states[m + 1].dispatched == []
    ensures !steps[m].write.RaisedUnstored? ==> forall p | p in states[n].dispatched :: steps[m].reply.next <= p
  {
    PollInvAlways(states, steps, m);
    assert Next(states[m], steps[m]) == Some(states[m + 1]);
    if !steps[m].write.RaisedUnstored? {
      PastAlways(states, steps, m + 1, n, steps[m].reply.next);
    }
  }

  // ----- Nothing is missed -----

  // The text messages of a room between two positions, in order.
  function RoomTexts(stream: Stream, room: RoomId, from: nat, until: nat): seq<nat>
    requires until <= |stream|
    decreases until
  {
    if until <= from then []
    else
      RoomTexts(stream, room, from, until - 1) +
      if stream[until - 1].room == room && stream[until - 1].isText then [until - 1] else []
  }

  // The dispatched positions that belong to a room, in order.
  function InRoom(stream: Stream, room: RoomId, positions: seq<nat>): seq<nat> {
    if positions == [] then []
    else InRoom(stream, room, positions[..|positions| - 1]) +
         var p := positions[|positions| - 1]; if p < |stream| && stream[p].room == room then [p] else []
  }

  // Every event between the tokens is in the timeline of its room.
  predicate Complete(stream: Stream, since: Option<Token>, reply: SyncReply) {
    reply.SyncResponse? ==>
      forall p | From(since) <= p < reply.next && p < |stream| ::
        exists i | 0 <= i < |reply.rooms| :: reply.rooms[i].room == stream[p].room && p in reply.rooms[i].timeline
  }

  // The steps of one process whose syncs are complete and whose writes succeed.
  predicate Smooth(s: PollState, step: Step) {
    match step
    case Append(_) => true
    case Sync(reply, write) => s.phase.Looping? && write.Written? && Complete(s.stream, s.phase.since, reply)
    case _ => false
  }

  lemma InRoomLast(stream: Stream, room: RoomId, init: seq<nat>, p: nat)
    ensures InRoom(stream, room, init + [p]) ==
            InRoom(stream, room, init) + if p < |stream| && stream[p].room == room then [p] else []
  {
    assert (init + [p])[..|init|] == init;
  }

  lemma TextsLast(stream: Stream, init: seq<nat>, p: nat)
    ensures Texts(stream, init + [p]) == Texts(stream, init) + if p < |stream| && stream[p].isText then [p] else []
  {
    assert (init + [p])[..|init|] == init;
  }

  lemma {:induction false} InRoomConcat(stream: Stream, room: RoomId, xs: seq<nat>, ys: seq<nat>)
    ensures InRoom(stream, room, xs + ys) == InRoom(stream, room, xs) + InRoom(stream, room, ys)
  {
    if ys == [] {
      assert xs + ys == xs;
    } else {
      InRoomConcat(stream, room, xs, ys[..|ys| - 1]);
      assert (xs + ys)[..|xs + ys| - 1] == xs + ys[..|ys| - 1];
    }
  }

  lemma {:induction false} RoomTextsConcat(stream: Stream, room: RoomId, a: nat, b: nat, c: nat)
    requires a <= b <= c <= |stream|
    ensures RoomTexts(stream, room, a, c) == RoomTexts(stream, room, a, b) + RoomTexts(stream, room, b, c)
    decreases c
  {
    if b < c {
      RoomTextsConcat(stream, room, a, b, c - 1);
    }
  }

  // New events do not change what lies before them.
  lemma {:induction false} RoomTextsStay(stream: Stream, event: RoomEvent, room: RoomId, a: nat, b: nat)
    requires b <= |stream|
    ensures RoomTexts(stream + [event], room, a, b) == RoomTexts(stream, room, a, b)
    decreases b
  {
    if a < b {
      RoomTextsStay(stream, event, room, a, b - 1);
    }
  }

  lemma {:induction false} InRoomStays(stream: Stream, event: RoomEvent, room: RoomId, positions: seq<nat>)
    requires forall p | p in positions :: p < |stream|
    ensures InRoom(stream + [event], room, positions) == InRoom(stream, room, positions)
  {
    if positions != [] {
      var init, last := positions[..|positions| - 1], positions[|positions| - 1];
      assert positions == init + [last];
      assert last in positions && forall p | p in init :: p in positions;
      InRoomLast(stream, room, init, last);
      InRoomLast(stream + [event], room, init, last);
      hide InRoom;
      InRoomStays(stream, event, room, init);
    }
  }

  predicate Covers(stream: Stream, room: RoomId, from: nat, until: nat, timeline: seq<nat>)
    requires until <= |stream|
  {
    forall p | from <= p < until && stream[p].room == room :: p in timeline
  }

  // An increasing timeline that has every event of the room up to a position is that room's part.
  lemma {:induction false} WholeTimeline(stream: Stream, room: RoomId, from: nat, until: nat, timeline: seq<nat>)
    requires until <= |stream| && TimelineOk(stream, room, from, until, timeline)
    requires Covers(stream, room, from, until, timeline)
    ensures Texts(stream, timeline) == RoomTexts(stream, room, from, until)
    decreases until
  {
    if until <= from {
      assert timeline == [];
    } else if timeline != [] && timeline[|timeline| - 1] == until - 1 {
      var init := timeline[..|timeline| - 1];
      InitIsWhole(stream, room, from, until, timeline);
      TextsLast(stream, init, until - 1);
      assert timeline == init + [until - 1];
      hide TimelineOk, Covers, Texts;
      WholeTimeline(stream, room, from, until - 1, init);
    } else {
      LastIsAnothers(stream, room, from, until, timeline);
      hide TimelineOk, Covers, Texts;
      WholeTimeline(stream, room, from, until - 1, timeline);
    }
  }

  lemma InitIsWhole(stream: Stream, room: RoomId, from: nat, until: nat, timeline: seq<nat>)
    requires from < until <= |stream| && TimelineOk(stream, room, from, until, timeline)
    requires Covers(stream, room, from, until, timeline)
    requires timeline != [] && timeline[|timeline| - 1] == until - 1
    ensures TimelineOk(stream, room, from, until - 1, timeline[..|timeline| - 1])
    ensures Covers(stream, room, from, until - 1, timeline[..|timeline| - 1])
    ensures stream[until - 1].room == room
  {
    var init := timeline[..|timeline| - 1];
    forall p | from <= p < until - 1 && stream[p].room == room ensures p in init {
      var k :| 0 <= k < |timeline| && timeline[k] == p;
      assert init[k] == p;
    }
  }

  lemma LastIsAnothers(stream: Stream, room: RoomId, from: nat, until: nat, timeline: seq<nat>)
    requires from < until <= |stream| && TimelineOk(stream, room, from, until, timeline)
    requires Covers(stream, room, from, until, timeline)
    requires timeline == [] || timeline[|timeline| - 1] != until - 1
    ensures TimelineOk(stream, room, from, until - 1, timeline) && Covers(stream, room, from, until - 1, timeline)
    ensures stream[until - 1].room != room
  {
  }

  lemma {:induction false} InRoomOfOwn(stream: Stream, room: RoomId, positions: seq<nat>)
    requires forall p | p in positions :: p < |stream| && stream[p].room == room
    ensures InRoom(stream, room, positions) == positions
  {
    if positions != [] {
      var init, last := positions[..|positions| - 1], positions[|positions| - 1];
      assert positions == init + [last];
      assert last in positions && forall p | p in init :: p in positions;
      InRoomLast(stream, room, init, last);
      hide InRoom;
      InRoomOfOwn(stream, room, init);
    }
  }

  lemma {:induction false} InRoomOfOthers(stream: Stream, room: RoomId, positions: seq<nat>)
    requires forall p | p in positions :: p < |stream| && stream[p].room != room
    ensures InRoom(stream, room, positions) == []
  {
    if positions != [] {
      var init, last := positions[..|positions| - 1], positions[|positions| - 1];
      assert positions == init + [last];
      assert last in positions && forall p | p in init :: p in positions;
      InRoomLast(stream, room, init, last);
      hide InRoom;
      InRoomOfOthers(stream, room, init);
    }
  }

  // What the last room of a response adds for another room: nothing.
  lemma LastRoomIsAnother(stream: Stream, agents: set<RoomId>, rooms: seq<Joined>, from: nat, until: nat, room: RoomId)
    requires rooms != [] && rooms[|rooms| - 1].room != room
    requires TimelineOk(stream, rooms[|rooms| - 1].room, from, until, rooms[|rooms| - 1].timeline)
    ensures InRoom(stream, room, Dispatches(stream, agents, rooms)) ==
            InRoom(stream, room, Dispatches(stream, agents, rooms[..|rooms| - 1]))
  {
    var init, last := rooms[..|rooms| - 1], rooms[|rooms| - 1];
    var xs, ys := Dispatches(stream, agents, init), if last.room in agents then Texts(stream, last.timeline) else [];
    TextsDistinct(stream, last.room, from, until, last.timeline);
    InRoomConcat(stream, room, xs, ys);
    hide TimelineOk, InRoom, Texts;
    InRoomOfOthers(stream, room, ys);
  }

  // And for itself, if it is configured: the texts of its timeline.
  lemma LastRoomIsThis(stream: Stream, agents: set<RoomId>, rooms: seq<Joined>, from: nat, until: nat)
    requires rooms != [] && rooms[|rooms| - 1].room in agents
    requires TimelineOk(stream, rooms[|rooms| - 1].room, from, until, rooms[|rooms| - 1].timeline)
    ensures var last := rooms[|rooms| - 1];
            InRoom(stream, last.room, Dispatches(stream, agents, rooms)) ==
            InRoom(stream, last.room, Dispatches(stream, agents, rooms[..|rooms| - 1])) + Texts(stream, last.timeline)
  {
    var init, last := rooms[..|rooms| - 1], rooms[|rooms| - 1];
    TextsDistinct(stream, last.room, from, until, last.timeline);
    InRoomConcat(stream, last.room, Dispatches(stream, agents, init), Texts(stream, last.timeline));
    hide TimelineOk, InRoom, Texts;
    InRoomOfOwn(stream, last.room, Texts(stream, last.timeline));
  }

  predicate TimelinesOk(stream: Stream, rooms: seq<Joined>, from: nat, until: nat) {
    forall i | 0 <= i < |rooms| :: TimelineOk(stream, rooms[i].room, from, until, rooms[i].timeline)
  }

  // A room without a timeline gets nothing.
  lemma {:induction false} DispatchesElsewhere(
      stream: Stream, agents: set<RoomId>, from: nat, until: nat, rooms: seq<Joined>, room: RoomId)
    requires TimelinesOk(stream, rooms, from, until) && forall i | 0 <= i < |rooms| :: rooms[i].room != room
    ensures InRoom(stream, room, Dispatches(stream, agents, rooms)) == []
  {
    if rooms != [] {
      LastRoomIsAnother(stream, agents, rooms, from, until, room);
      hide TimelineOk, Dispatches;
      DispatchesElsewhere(stream, agents, from, until, rooms[..|rooms| - 1], room);
    }
  }

  // A configured room with one gets the texts of its timeline.
  lemma {:induction false} DispatchesInRoom(
      stream: Stream, agents: set<RoomId>, from: nat, until: nat, rooms: seq<Joined>, i: nat)
    requires i < |rooms| && rooms[i].room in agents && TimelinesOk(stream, rooms, from, until)
    requires forall j, k | 0 <= j < k < |rooms| :: rooms[j].room != rooms[k].room
    ensures InRoom(stream, rooms[i].room, Dispatches(stream, agents, rooms)) == Texts(stream, rooms[i].timeline)
  {
    var init := rooms[..|rooms| - 1];
    hide TimelineOk, Dispatches, InRoom;
    if i == |rooms| - 1 {
      LastRoomIsThis(stream, agents, rooms, from, until);
      DispatchesElsewhere(stream, agents, from, until, init, rooms[i].room);
    } else {
      LastRoomIsAnother(stream, agents, rooms, from, until, rooms[i].room);
      assert init[i] == rooms[i];
      DispatchesInRoom(stream, agents, from, until, init, i);
    }
  }

  // A complete response dispatches exactly the room's texts between the tokens.
  lemma CompleteDispatch(stream: Stream, agents: set<RoomId>, since: Option<Token>, reply: SyncReply, room: RoomId)
    requires room in agents && reply.SyncResponse? && AnswerOk(stream, since, reply) && Complete(stream, since, reply)
    ensures InRoom(stream, room, Dispatches(stream, agents, reply.rooms)) ==
            RoomTexts(stream, room, From(since), reply.next)
  {
    if i :| 0 <= i < |reply.rooms| && reply.rooms[i].room == room {
      forall p | From(since) <= p < reply.next && stream[p].room == room ensures p in reply.rooms[i].timeline {
        var j :| 0 <= j < |reply.rooms| && reply.rooms[j].room == stream[p].room && p in reply.rooms[j].timeline;
      }
      DispatchesInRoom(stream, agents, From(since), reply.next, reply.rooms, i);
      WholeTimeline(stream, room, From(since), reply.next, reply.rooms[i].timeline);
    } else {
      DispatchesElsewhere(stream, agents, From(since), reply.next, reply.rooms, room);
      NoneOfRoom(stream, room, From(since), reply.next);
    }
  }

  lemma {:induction false} NoneOfRoom(stream: Stream, room: RoomId, from: nat, until: nat)
    requires until <= |stream| && forall p | from <= p < until :: stream[p].room != room
    ensures RoomTexts(stream, room, from, until) == []
    decreases until
  {
    if from < until {
      NoneOfRoom(stream, room, from, until - 1);
    }
  }

  // What has been dispatched since an earlier state.
  function Since(s: PollState, earlier: nat): seq<nat> {
    if earlier <= |s.dispatched| then s.dispatched[earlier..] else []
  }

  // Since an earlier point, at which the loop's token was from, the messages of
  // the room up to the present token have been dispatched, each once and in order.
  predicate Delivered(s: PollState, earlier: nat, from: nat, room: RoomId) {
    && s.phase.Looping? && room in s.agents
    && earlier <= |s.dispatched| && from <= From(s.phase.since) <= |s.stream|
    && (forall p | p in Since(s, earlier) :: p < |s.stream|)
    && InRoom(s.stream, room, Since(s, earlier)) == RoomTexts(s.stream, room, from, From(s.phase.since))
  }

  // In one process, with complete syncs and successful writes, every message of
  // a configured room after the token the loop had in state m is dispatched
  // exactly once, in order, up to the token it has in state n.
  lemma {:induction false} DispatchedExactlyOnce(states: seq<PollState>, steps: seq<Step>, m: nat, n: nat, room: RoomId)
    requires Run(states, steps) && m <= n < |states|
    requires states[m].phase.Looping? && room in states[m].agents
    requires forall i | m <= i < n :: Smooth(states[i], steps[i])
    ensures Delivered(states[n], |states[m].dispatched|, From(states[m].phase.since), room)
  {
    if m == n {
      PollInvAlways(states, steps, n);
      NothingSince(states[m], room);
    } else {
      hide Smooth, PollInv, Next, Delivered, From, Init;
      DispatchedExactlyOnce(states, steps, m, n - 1, room);
      SmoothStep(states[n - 1], steps[n - 1], states[n], |states[m].dispatched|, From(states[m].phase.since), room);
    }
  }

  lemma NothingSince(s: PollState, room: RoomId)
    requires PollInv(s) && s.phase.Looping? && room in s.agents
    ensures Delivered(s, |s.dispatched|, From(s.phase.since), room)
  {
  }

  lemma SmoothStep(s: PollState, step: Step, s': PollState, earlier: nat, from: nat, room: RoomId)
    requires Next(s, step) == Some(s') && Smooth(s, step) && Delivered(s, earlier, from, room)
    ensures Delivered(s', earlier, from, room)
  {
    match step
    case Append(event) =>
      RoomTextsStay(s.stream, event, room, from, From(s.phase.since));
      InRoomStays(s.stream, event, room, Since(s, earlier));
    case Sync(reply, write) =>
      if reply.SyncResponse? {
        var more := Dispatches(s.stream, s.agents, reply.rooms);
        assert Since(s', earlier) == Since(s, earlier) + more;
        CompleteDispatch(s.stream, s.agents, s.phase.since, reply, room);
        DispatchesDistinct(s.stream, s.agents, From(s.phase.since), reply.next, reply.rooms);
        InRoomConcat(s.stream, room, Since(s, earlier), more);
        RoomTextsConcat(s.stream, room, from, From(s.phase.since), reply.next);
      }
  }

  // ----- The loop itself -----

  class Poller {
    const db: Database
    var phase: Phase
    var agents: set<RoomId>
    var handlers: seq<nat>

    constructor (db: Database)
      ensures this.db == db && phase == Down && handlers == []
    {
      this.db, phase, agents, handlers := db, Down, {}, [];
    }

    function State(stream: Stream): PollState
      reads this, db
    {
      PollState(stream, agents, db.since, phase, handlers)
    }

    // set_since, as it goes this time.
    method SetSince(next: Token, write: Write) returns (raised: bool)
      modifies db
      ensures raised == !write.Written?
      ensures db.State() == if write.RaisedUnstored? then old(db.State()) else old(db.State()).(since := Some(next))
    {
      if !write.RaisedUnstored? {
        db.SetSince(next);
      }
      raised := !write.Written?;
    }

    method Begin(rooms: set<RoomId>, ghost stream: Stream)
      requires phase.Down?
      modifies this
      ensures Next(old(State(stream)), Start(rooms)) == Some(State(stream))
      ensures agents == rooms && handlers == old(handlers)
      ensures phase == if db.since.None? then Seeding else Looping(db.since)
    {
      agents := rooms;
      var since := db.GetSince();
      phase := if since.None? then Seeding else Looping(since);
    }

    // Cold start: take the token of a priming sync, and none of its events.
    method SeedOnce(reply: SyncReply, write: Write, ghost stream: Stream)
      requires phase.Seeding? && AnswerOk(stream, None, reply)
      modifies this, db
      ensures Next(old(State(stream)), Seed(reply, write)) == Some(State(stream))
      ensures handlers == old(handlers) && agents == old(agents)
      ensures reply.SyncError? ==> phase == Looping(None) && db.State() == old(db.State())
      ensures reply.SyncResponse? ==>
                && db.State() ==
                   (if write.RaisedUnstored? then old(db.State()) else old(db.State()).(since := Some(reply.next)))
                && phase == if write.Written? then Looping(Some(reply.next)) else Down
    {
      match reply
      case SyncError => phase := Looping(None);
      case SyncResponse(next, _) =>
        var raised := SetSince(next, write);
        phase := if raised then Down else Looping(Some(next));
    }

    // A handler for each text message of one room.
    method DispatchRoom(stream: Stream, timeline: seq<nat>)
      modifies this`handlers
      ensures handlers == old(handlers) + Texts(stream, timeline)
    {
      for k := 0 to |timeline|
        invariant handlers == old(handlers) + Texts(stream, timeline[..k])
      {
        assert timeline[..k + 1] == timeline[..k] + [timeline[k]];
        TextsLast(stream, timeline[..k], timeline[k]);
        if timeline[k] < |stream| && stream[timeline[k]].isText {
          handlers := handlers + [timeline[k]];
        }
      }
      assert timeline[..|timeline|] == timeline;
    }

    // The configured rooms of a response, in its order.
    method DispatchAll(stream: Stream, rooms: seq<Joined>)
      modifies this`handlers
      ensures handlers == old(handlers) + Dispatches(stream, agents, rooms)
    {
      assert Dispatches(stream, agents, rooms[..0]) == [] && rooms[..|rooms|] == rooms;
      hide Dispatches, Texts;
      for i := 0 to |rooms|
        invariant handlers == old(handlers) + Dispatches(stream, agents, rooms[..i])
      {
        DispatchesLast(stream, agents, rooms, i);
        if rooms[i].room in agents {
          DispatchRoom(stream, rooms[i].timeline);
        }
      }
    }

    // One turn of the loop: move on to the new token, store it, and only then
    // start a handler for each text message in a configured room.
    method SyncOnce(stream: Stream, reply: SyncReply, write: Write)
      requires phase.Looping? && AnswerOk(stream, phase.since, reply)
      modifies this, db
      ensures Next(old(State(stream)), Sync(reply, write)) == Some(State(stream))
      ensures agents == old(agents)
      ensures reply.SyncError? ==>
                phase == old(phase) && db.State() == old(db.State()) && handlers == old(handlers)
      ensures reply.SyncResponse? ==>
                && phase == Looping(Some(reply.next))
                && db.State() ==
                   (if write.RaisedUnstored? then old(db.State()) else old(db.State()).(since := Some(reply.next)))
                && handlers == old(handlers) + if write.Written? then Dispatches(stream, agents, reply.rooms) else []
    {
      hide AnswerOk, Dispatches;
      if reply.SyncError? {
        return;
      }
      phase := Looping(Some(reply.next));
      var raised := SetSince(reply.next, write);
      if raised {
        assert handlers == handlers + [];
        return;
      }
      DispatchAll(stream, reply.rooms);
    }
  }

  lemma DispatchesLast(stream: Stream, agents: set<RoomId>, rooms: seq<Joined>, i: nat)
    requires i < |rooms|
    ensures Dispatches(stream, agents, rooms[..i + 1]) ==
            Dispatches(stream, agents, rooms[..i]) +
            if rooms[i].room in agents then Texts(stream, rooms[i].timeline) else []
  {
    assert rooms[..i + 1][..i] == rooms[..i];
  }
}
