// post_message and _post_response: a turn's output is posted in chunks, and
// every event it is posted as leads back to the turn's session.
module Posting {
  import opened Prelude
  import opened Text
  import opened Chunking
  import opened Store
  import opened Databases

  // How the homeserver answers room_send; an error response has no event id.
  datatype Reply = Accepted(event: EventId) | Rejected | Unreachable

  datatype Sent = Sent(room: RoomId, body: string, replyTo: EventId, event: EventId)

  datatype PostError = SendFailed | Database(error: DbError)

  class MatrixClient {
    // The answers still to come, and what has been sent.
    var replies: seq<Reply>
    var sent: seq<Sent>

    constructor (replies: seq<Reply>)
      ensures this.replies == replies && sent == []
    {
      this.replies, sent := replies, [];
    }

    // Returns the new event's id, or "" if the homeserver turned the message down.
    method PostMessage(room: RoomId, body: string, replyTo: EventId) returns (result: Result<EventId, PostError>)
      modifies this
      ensures replies == if old(replies) == [] then [] else old(replies)[1..]
      ensures old(replies) != [] && old(replies)[0].Unreachable? ==> result == Err(SendFailed) && sent == old(sent)
      ensures old(replies) != [] && old(replies)[0].Accepted? ==> result == Ok(old(replies)[0].event)
      ensures old(replies) == [] || old(replies)[0].Rejected? ==> result == Ok("")
      ensures result.Ok? ==> sent == old(sent) + [Sent(room, body, replyTo, result.value)]
    {
      var reply := Rejected;
      if replies != [] {
        reply, replies := replies[0], replies[1..];
      }
      match reply
      case Unreachable => return Err(SendFailed);
      case Accepted(event) =>
        sent := sent + [Sent(room, body, replyTo, event)];
        return Ok(event);
      case Rejected =>
        sent := sent + [Sent(room, body, replyTo, "")];
        return Ok("");
    }
  }

  // The messages a turn's output makes.
  function Bodies(output: string, exitCode: int, shortId: string, mention: string, maxLen: nat,
                  action: string): seq<string>
    requires maxLen >= 1
  {
    if exitCode != 0 then [mention + " Session " + shortId + " " + action + " error:\n\n" + output]
    else
      var chunks := Chunks(if output == "" then "(no output)" else output, maxLen);
      if chunks == [] then [] else [mention + " " + chunks[0]] + chunks[1..]
  }

  // What other tasks do to sessions and aliases while message k is on its way.
  function OthersAt(others: seq<seq<Op>>, k: nat): seq<Op> {
    if k < |others| then others[k] else []
  }

  // All that happens to the tables while these events are posted: each is
  // aliased to root once its message is out.
  function OpsOf(events: seq<EventId>, others: seq<seq<Op>>, root: EventId): seq<Op> {
    if events == [] then []
    else
      var k := |events| - 1;
      OpsOf(events[..k], others, root) + OthersAt(others, k) + [Alias(events[k], root)]
  }

  // register_alias raises for event k.
  predicate Refused(t: Tables, events: seq<EventId>, others: seq<seq<Op>>, root: EventId, k: nat)
    requires k < |events|
  {
    RegisterAlias(ApplyAll(t, OpsOf(events[..k], others, root) + OthersAt(others, k)), events[k], root).Err?
  }

  function EventsOf(sent: seq<Sent>): seq<EventId> {
    seq(|sent|, i requires 0 <= i < |sent| => sent[i].event)
  }

  // What was sent is the first |sent| bodies, in order, all to one room and in reply to one event.
  predicate SentInOrder(sent: seq<Sent>, bodies: seq<string>, room: RoomId, replyTo: EventId) {
    && |sent| <= |bodies|
    && forall i | 0 <= i < |sent| :: sent[i].room == room && sent[i].replyTo == replyTo && sent[i].body == bodies[i]
  }

  function BodiesOf(sent: seq<Sent>): seq<string> {
    seq(|sent|, i requires 0 <= i < |sent| => sent[i].body)
  }

  // One message, which mentions the user, names the session by the first eight
  // characters of its id, and ends with the output in full.
  predicate ReportsError(bodies: seq<string>, output: string, session: SessionId, mention: string) {
    && |bodies| == 1
    && mention + " Session " + session[..if |session| <= 8 then |session| else 8] <= bodies[0]
    && |output| <= |bodies[0]| && bodies[0][|bodies[0]| - |output|..] == output
  }

  // Messages within the limit, but for a mention in front of the first, which give the output back up to newlines.
  predicate Reproduces(bodies: seq<string>, output: string, mention: string, maxLen: nat) {
    && bodies != [] && mention + " " <= bodies[0]
    && var unmentioned := [bodies[0][|mention| + 1..]] + bodies[1..];
       && (forall b | b in unmentioned :: b != "" && |b| <= maxLen)
       && DropNewlines(Concat(unmentioned)) == DropNewlines(if output == "" then "(no output)" else output)
  }

  function ShortId(session: SessionId): string {
    if |session| <= 8 then session else session[..8]
  }

  // _post_response, while others work on the tables at every await. It ends with
  // all bodies posted, or at the first send or alias that raises.
  method PostResponse(client: MatrixClient, db: Database, room: RoomId, output: string, exitCode: int,
                      session: SessionId, mention: string, maxLen: nat, replyTo: EventId, action: string,
                      root: EventId, others: seq<seq<Op>>)
    returns (error: Option<PostError>, ghost posted: seq<Sent>)
    requires maxLen >= 1 && Valid(db.State())
    modifies client, db
    ensures client.sent == old(client.sent) + posted && Valid(db.State())
    ensures SentInOrder(posted, Bodies(output, exitCode, ShortId(session), mention, maxLen, action), room, replyTo)
    ensures var events, t := EventsOf(posted), old(db.State());
            match error
            case None =>
              && |posted| == |Bodies(output, exitCode, ShortId(session), mention, maxLen, action)|
              && db.State() == ApplyAll(t, OpsOf(events, others, root))
              && forall k | 0 <= k < |events| :: !Refused(t, events, others, root, k)
            case Some(Database(_)) =>
              && events != [] && Refused(t, events, others, root, |events| - 1)
              && db.State() == ApplyAll(t, OpsOf(events, others, root))
            case Some(SendFailed) =>
              && Unreachable in old(client.replies)
              && db.State() == ApplyAll(t, OpsOf(events, others, root) + OthersAt(others, |events|))
    ensures error.None? && exitCode != 0 ==> ReportsError(BodiesOf(posted), output, session, mention)
    ensures error.None? && exitCode == 0 ==> Reproduces(BodiesOf(posted), output, mention, maxLen)
  {
    hide OpsOf, Valid, Refused, ReportsError, Reproduces;
    ErrorIsReported(output, exitCode, session, mention, maxLen, action);
    OutputIsReproduced(output, ShortId(session), mention, maxLen, action);
    posted := [];
    ghost var call := Call(Bodies(output, exitCode, ShortId(session), mention, maxLen, action), db.State(),
                           client.replies, client.sent, others, room, replyTo, root);
    assert client.sent == client.sent + [] && EventsOf([]) == [] && OpsOf([], others, root) == [] by {
      NothingYet(others, root);
    }
    if exitCode != 0 {
      var body := mention + " Session " + ShortId(session) + " " + action + " error:\n\n" + output;
      error, posted := PostAndAlias(client, db, room, body, replyTo, root, others, 0, call, []);
      if error.None? {
        AllSent(posted, call.bodies, room, replyTo);
      }
      return;
    }
    var text := if output == "" then "(no output)" else output;
    var chunks := SplitOnParagraphs(text, maxLen);
    var i := 0;
    while i < |chunks|
      invariant 0 <= i <= |chunks| && i == |posted|
      invariant Progress(client, db, call, posted)
    {
      var body := if i == 0 then mention + " " + chunks[i] else chunks[i];
      error, posted := PostAndAlias(client, db, room, body, replyTo, root, others, i, call, posted);
      if error.Some? {
        return;
      }
      i := i + 1;
    }
    AllSent(posted, call.bodies, room, replyTo);
    return None, posted;
  }

  lemma NothingYet(others: seq<seq<Op>>, root: EventId)
    ensures OpsOf([], others, root) == []
  {
  }

  // What a response started from.
  datatype Call = Call(bodies: seq<string>, tables: Tables, replies: seq<Reply>, sent: seq<Sent>,
                       others: seq<seq<Op>>, room: RoomId, replyTo: EventId, root: EventId)

  // Where the posting loop stands: posted are out and aliased.
  ghost predicate Progress(client: MatrixClient, db: Database, call: Call, posted: seq<Sent>)
    reads client, db
  {
    && client.sent == call.sent + posted && SentInOrder(posted, call.bodies, call.room, call.replyTo)
    && (forall r | r in client.replies :: r in call.replies)
    && db.State() == ApplyAll(call.tables, OpsOf(EventsOf(posted), call.others, call.root)) && Valid(db.State())
    && forall k | 0 <= k < |posted| :: !Refused(call.tables, EventsOf(posted), call.others, call.root, k)
  }

  // One message: post_message, then register_alias.
  method PostAndAlias(client: MatrixClient, db: Database, room: RoomId, body: string, replyTo: EventId, root: EventId,
                      others: seq<seq<Op>>, n: nat, ghost call: Call, ghost already: seq<Sent>)
    returns (error: Option<PostError>, ghost posted: seq<Sent>)
    requires Progress(client, db, call, already) && n == |already| < |call.bodies| && body == call.bodies[n]
    requires others == call.others && room == call.room && replyTo == call.replyTo && root == call.root
    modifies client, db
    ensures client.sent == call.sent + posted && SentInOrder(posted, call.bodies, room, replyTo) && Valid(db.State())
    ensures var events, t := EventsOf(posted), call.tables;
            match error
            case None => |posted| == n + 1 && Progress(client, db, call, posted)
            case Some(Database(_)) =>
              && events != [] && Refused(t, events, others, root, |events| - 1)
              && db.State() == ApplyAll(t, OpsOf(events, others, root))
            case Some(SendFailed) =>
              && posted == already && Unreachable in call.replies
              && db.State() == ApplyAll(t, OpsOf(events, others, root) + OthersAt(others, n))
  {
    hide OpsOf, Valid, Refused, ApplyAll;
    ghost var events := EventsOf(already);
    posted := already;
    var result := client.PostMessage(room, body, replyTo);
    db.Perform(OthersAt(others, n));
    ApplyAllConcat(call.tables, OpsOf(events, others, root), OthersAt(others, n));
    if result.Err? {
      return Some(result.error), posted;
    }
    var event := result.value;
    posted := already + [Sent(room, body, replyTo, event)];
    assert EventsOf(posted) == events + [event];
    OneMore(call.tables, events, others, root, event);
    var refused := db.RegisterAlias(event, root);
    if refused.Some? {
      return Some(Database(refused.value)), posted;
    }
    return None, posted;
  }

  // One event more: what has been done, and what has been refused.
  lemma OneMore(t: Tables, events: seq<EventId>, others: seq<seq<Op>>, root: EventId, event: EventId)
    ensures var n, more := |events|, events + [event];
            var before := ApplyAll(t, OpsOf(events, others, root) + OthersAt(others, n));
            && ApplyAll(t, OpsOf(more, others, root)) == Apply(before, Alias(event, root))
            && (Refused(t, more, others, root, n) <==> RegisterAlias(before, event, root).Err?)
            && forall k | 0 <= k < n :: Refused(t, more, others, root, k) == Refused(t, events, others, root, k)
  {
    var n, more := |events|, events + [event];
    assert more[..n] == events;
    assert forall k | 0 <= k < n :: more[..k] == events[..k];
    var ops := OpsOf(events, others, root) + OthersAt(others, n);
    assert (ops + [Alias(event, root)])[..|ops|] == ops;
  }

  // ----- What posting achieves -----

  lemma {:induction false} OpsOfPrefix(events: seq<EventId>, others: seq<seq<Op>>, root: EventId, k: nat)
    requires k <= |events|
    ensures OpsOf(events[..k], others, root) <= OpsOf(events, others, root)
  {
    if k == |events| {
      assert events[..k] == events;
    } else {
      var init := events[..|events| - 1];
      assert init[..k] == events[..k];
      OpsOfPrefix(init, others, root, k);
    }
  }

  // The event is an alias of the thread exactly while the thread is there.
  predicate Follows(t: Tables, event: EventId, root: EventId) {
    && event !in t.sessions && (event in t.aliases <==> root in t.sessions)
    && (event in t.aliases ==> t.aliases[event] == root)
  }

  lemma FollowsOn(t: Tables, op: Op, event: EventId, root: EventId)
    requires Valid(t) && Follows(t, event, root) && Introduces(op) != Some(event) && Introduces(op) != Some(root)
    ensures Follows(Apply(t, op), event, root)
  {
    if op.Clean? {
      CleanupTables(t, op.cutoff);
    }
  }

  // An event aliased to a live thread stays with it, and goes with its session.
  lemma {:induction false} AliasLives(t: Tables, ops: seq<Op>, m: nat, event: EventId, root: EventId)
    requires Valid(t) && FreshIds(t, ops) && m <= |ops|
    requires root in ApplyAll(t, ops[..m]).sessions && Follows(ApplyAll(t, ops[..m]), event, root)
    ensures Follows(ApplyAll(t, ops), event, root)
    decreases |ops|
  {
    if m == |ops| {
      assert ops[..m] == ops;
    } else {
      var init, op := ops[..|ops| - 1], ops[|ops| - 1];
      assert init[..m] == ops[..m];
      NotIntroducedAgain(t, ops, m, event);
      NotIntroducedAgain(t, ops, m, root);
      RunIsValid(t, init);
      assert FreshIds(t, init);
      hide Follows, FreshIds, Valid, GetSessionByEvent;
      AliasLives(t, init, m, event, root);
      FollowsOn(ApplyAll(t, init), op, event, root);
    }
  }

  // Just after its alias was accepted, the event follows the thread.
  lemma AcceptedFollows(t: Tables, ops: seq<Op>, event: EventId, root: EventId)
    requires Valid(t) && event != ""
    requires FreshIds(t, ops + [Alias(event, root)]) && RegisterAlias(ApplyAll(t, ops), event, root).Ok?
    ensures var t1 := ApplyAll(t, ops + [Alias(event, root)]); root in t1.sessions && Follows(t1, event, root)
  {
    var upto := ops + [Alias(event, root)];
    assert upto[..|ops|] == ops;
    NotKnownYet(t, upto);
    RunIsValid(t, ops);
    hide FreshIds;
    AliasRefines(ApplyAll(t, ops), event, root);
  }

  lemma OpsUpTo(events: seq<EventId>, others: seq<seq<Op>>, root: EventId, k: nat)
    requires k < |events|
    ensures OpsOf(events[..k + 1], others, root) ==
            OpsOf(events[..k], others, root) + OthersAt(others, k) + [Alias(events[k], root)]
  {
    assert events[..k + 1][..k] == events[..k];
  }

  lemma PrefixIsFresh(t: Tables, ops: seq<Op>, upto: seq<Op>)
    requires FreshIds(t, ops) && upto <= ops
    ensures FreshIds(t, upto) && ops[..|upto|] == upto
  {
  }

  // Whatever others do meanwhile: an event that was posted under a fresh id, and
  // whose alias was not refused, resolves to the session of its thread, which
  // is the session it was posted for, as long as that is kept, and then to nothing.
  lemma PostedEventsResolve(t: Tables, events: seq<EventId>, others: seq<seq<Op>>, root: EventId, k: nat)
    requires Valid(t) && Disjoint(t) && root in t.sessions && FreshIds(t, OpsOf(events, others, root))
    requires k < |events| && events[k] != "" && !Refused(t, events, others, root, k)
    ensures var after := ApplyAll(t, OpsOf(events, others, root));
            if root in after.sessions then
              GetSessionByEvent(after, events[k]) == Some((root, after.sessions[root]))
              && after.sessions[root].id == t.sessions[root].id
            else GetSessionByEvent(after, events[k]) == None
  {
    var ops, event := OpsOf(events, others, root), events[k];
    var upto := OpsOf(events[..k + 1], others, root);
    OpsOfPrefix(events, others, root, k + 1);
    OpsUpTo(events, others, root, k);
    PrefixIsFresh(t, ops, upto);
    hide OpsOf, FreshIds, Valid, Follows, Disjoint;
    AcceptedFollows(t, OpsOf(events[..k], others, root) + OthersAt(others, k), event, root);
    AliasLives(t, ops, |upto|, event, root);
    SessionStays(t, ops, root);
    FollowsResolves(ApplyAll(t, ops), event, root);
  }

  lemma SessionStays(t: Tables, ops: seq<Op>, root: EventId)
    requires Valid(t) && Disjoint(t) && FreshIds(t, ops) && root in t.sessions
    ensures root in ApplyAll(t, ops).sessions ==> ApplyAll(t, ops).sessions[root].id == t.sessions[root].id
  {
    hide FreshIds, Valid, Disjoint;
    assert ops[..0] == [];
    ResolutionIsStable(t, ops, 0, root);
  }

  lemma FollowsResolves(t: Tables, event: EventId, root: EventId)
    requires Follows(t, event, root)
    ensures GetSessionByEvent(t, event) == if root in t.sessions then Some((root, t.sessions[root])) else None
  {
  }

  // The bodies of a successful response without the mention.
  function Unmentioned(bodies: seq<string>, mention: string): seq<string>
    requires bodies != [] && |bodies[0]| >= |mention| + 1
  {
    [bodies[0][|mention| + 1..]] + bodies[1..]
  }

  // The bodies, less the mention in front of the first, are the output again,
  // but for newlines; and only the first may exceed the limit, by the mention.
  lemma BodiesReproduceOutput(output: string, shortId: string, mention: string, maxLen: nat, action: string)
    requires maxLen >= 1
    ensures var bodies := Bodies(output, 0, shortId, mention, maxLen, action);
            && bodies != [] && |bodies[0]| >= |mention| + 1 && bodies[0][..|mention| + 1] == mention + " "
            && DropNewlines(Concat(Unmentioned(bodies, mention))) ==
               DropNewlines(if output == "" then "(no output)" else output)
            && (forall b | b in Unmentioned(bodies, mention) :: b != "" && |b| <= maxLen)
  {
    var text := if output == "" then "(no output)" else output;
    var chunks, bodies := Chunks(text, maxLen), Bodies(output, 0, shortId, mention, maxLen, action);
    ChunksAreLossless(text, maxLen);
    SomeChunk(text, maxLen);
    assert bodies[0] == (mention + " ") + chunks[0];
    assert bodies[0][|mention| + 1..] == chunks[0];
    assert bodies[1..] == chunks[1..];
    assert Unmentioned(bodies, mention) == chunks;
  }

  lemma OutputIsReproduced(output: string, shortId: string, mention: string, maxLen: nat, action: string)
    requires maxLen >= 1
    ensures Reproduces(Bodies(output, 0, shortId, mention, maxLen, action), output, mention, maxLen)
  {
    BodiesReproduceOutput(output, shortId, mention, maxLen, action);
    hide Bodies, Concat, DropNewlines;
  }

  lemma ErrorIsReported(output: string, exitCode: int, session: SessionId, mention: string, maxLen: nat, action: string)
    requires maxLen >= 1
    ensures exitCode != 0 ==>
              var bodies := Bodies(output, exitCode, ShortId(session), mention, maxLen, action);
              ReportsError(bodies, output, session, mention)
  {
    if exitCode != 0 {
      var front := mention + " Session " + ShortId(session);
      var rest := " " + action + " error:\n\n";
      var body := Bodies(output, exitCode, ShortId(session), mention, maxLen, action)[0];
      assert body == front + (rest + output) && body == (front + rest) + output;
    }
  }

  lemma AllSent(posted: seq<Sent>, bodies: seq<string>, room: RoomId, replyTo: EventId)
    requires SentInOrder(posted, bodies, room, replyTo) && |posted| == |bodies|
    ensures BodiesOf(posted) == bodies
  {
  }

  lemma SomeChunk(text: string, maxLen: nat)
    requires maxLen >= 1
    ensures Chunks(text, maxLen) != []
  {
  }
}
