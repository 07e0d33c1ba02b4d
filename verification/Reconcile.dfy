// reconcile_once on the tables: one pass expires old rows, then resumes the
// approved ones and answers the denied ones, each claimed before it is acted on.
module Reconcile {
  import opened Prelude
  import opened Store
  import opened Databases
  import opened Dispatching
  import Approvals

  datatype Action = Resumed(row: Pending) | Noted(row: Pending)

  // What happens while the pass waits: what the resumed turn and others do to
  // sessions and aliases, the approvals they record, the rows that another pass
  // deletes, the event id of a note that was posted, and whether the call raises.
  datatype Wait = Wait(ops: seq<Op>, inserts: seq<Pending>, deletes: seq<ApprovalId>, event: EventId, raises: bool)

  const NOTHING_HAPPENS: Wait := Wait([], [], [], "", false)

  function WaitAt(script: seq<Wait>, k: nat): Wait {
    if k < |script| then script[k] else NOTHING_HAPPENS
  }

  predicate Inserts(w: Wait, a: ApprovalId) {
    exists j | 0 <= j < |w.inserts| :: w.inserts[j].approval == a
  }

  // Some other turn recorded this approval during the pass, or another pass deleted its row.
  predicate Touched(script: seq<Wait>, a: ApprovalId) {
    exists k | 0 <= k < |script| :: Inserts(script[k], a) || a in script[k].deletes
  }

  predicate DeletedByOthers(script: seq<Wait>, a: ApprovalId) {
    exists k | 0 <= k < |script| :: a in script[k].deletes
  }

  // What a pass does about one row.
  function Act(row: Pending, states: map<ApprovalId, ApprovalState>, agents: map<RoomId, AgentName>): seq<Action> {
    if Decided(row, states, ApprovedApproval) then (if row.room in agents then [Resumed(row)] else [])
    else if Decided(row, states, DeniedApproval) then [Noted(row)]
    else []
  }

  predicate Claims(row: Pending, states: map<ApprovalId, ApprovalState>) {
    Decided(row, states, ApprovedApproval) || Decided(row, states, DeniedApproval)
  }

  function Acts(rows: seq<Pending>, states: map<ApprovalId, ApprovalState>, agents: map<RoomId, AgentName>)
    : seq<Action>
  {
    if rows == [] then []
    else Acts(rows[..|rows| - 1], states, agents) + Act(rows[|rows| - 1], states, agents)
  }

  // What a pass works with: the table it read, what happens meanwhile, its live
  // rows, the states the registry reported, and the time.
  datatype View = View(before: map<ApprovalId, Pending>, script: seq<Wait>, live: seq<Pending>,
                       states: map<ApprovalId, ApprovalState>, clock: int)

  // The row of a is gone after the first n live rows have been looked at.
  predicate Gone(v: View, n: nat, a: ApprovalId)
    requires n <= |v.live|
  {
    exists i | 0 <= i < n :: v.live[i].approval == a && Claims(v.live[i], v.states)
  }

  // The table after n live rows and some waits: exactly the rows not expired
  // and not claimed, but for approvals that others touched meanwhile; and of those
  // that other turns recorded, all that the pass had not read and no other pass deleted.
  ghost predicate Kept(v: View, table: map<ApprovalId, Pending>, n: nat, waits: nat)
    requires n <= |v.live|
  {
    && (forall a | !Touched(v.script, a) ::
          && (a in table <==> a in v.before && !Expired(v.before[a], v.clock) && !Gone(v, n, a))
          && (a in table ==> table[a] == v.before[a]))
    && (forall k, a | 0 <= k < waits && Inserts(WaitAt(v.script, k), a) ::
          a in table || a in v.before || DeletedByOthers(v.script, a))
  }

  // The last of the first n agents to name the room is this one.
  predicate LastToName(agents: seq<(AgentName, RoomId)>, n: nat, room: RoomId, name: AgentName)
    requires n <= |agents|
  {
    exists i | 0 <= i < n :: agents[i] == (name, room) && forall j | i < j < n :: agents[j].1 != room
  }

  lemma OneMoreAgent(agents: seq<(AgentName, RoomId)>, n: nat, room: RoomId, name: AgentName)
    requires n < |agents|
    ensures LastToName(agents, n + 1, agents[n].1, agents[n].0)
    ensures LastToName(agents, n, room, name) && room != agents[n].1 ==> LastToName(agents, n + 1, room, name)
  {
    assert agents[n] == (agents[n].0, agents[n].1);
    if LastToName(agents, n, room, name) && room != agents[n].1 {
      var i :| 0 <= i < n && agents[i] == (name, room) && forall j | i < j < n :: agents[j].1 != room;
      assert agents[i] == (name, room) && forall j | i < j < n + 1 :: agents[j].1 != room;
    }
  }

  // _build_room_to_agent over the agents in the order of the configuration, each
  // name there once: a room that several agents name goes to the last of them, so
  // every room has one agent and every agent one room.
  method BuildRoomToAgent(agents: seq<(AgentName, RoomId)>) returns (rooms: map<RoomId, AgentName>)
    requires forall i, j | 0 <= i < j < |agents| :: agents[i].0 != agents[j].0
    ensures OneRoomEach(rooms)
    ensures forall i | 0 <= i < |agents| :: agents[i].1 in rooms
    ensures forall r | r in rooms :: LastToName(agents, |agents|, r, rooms[r])
  {
    rooms := map[];
    for n := 0 to |agents|
      invariant forall i | 0 <= i < n :: agents[i].1 in rooms
      invariant forall r | r in rooms :: LastToName(agents, n, r, rooms[r])
    {
      hide LastToName;
      ghost var was := rooms;
      rooms := rooms[agents[n].1 := agents[n].0];
      forall r | r in rooms ensures LastToName(agents, n + 1, r, rooms[r]) {
        OneMoreAgent(agents, n, r, rooms[r]);
        if r != agents[n].1 {
          assert LastToName(agents, n, r, was[r]);
        }
      }
    }
    NamesAreOnce(agents, rooms);
  }

  lemma NamesAreOnce(agents: seq<(AgentName, RoomId)>, rooms: map<RoomId, AgentName>)
    requires forall i, j | 0 <= i < j < |agents| :: agents[i].0 != agents[j].0
    requires forall r | r in rooms :: LastToName(agents, |agents|, r, rooms[r])
    ensures OneRoomEach(rooms)
  {
    forall r, q | r in rooms && q in rooms && rooms[r] == rooms[q] ensures r == q {
      assert LastToName(agents, |agents|, r, rooms[r]) && LastToName(agents, |agents|, q, rooms[q]);
    }
  }

  // ----- What others do during a wait -----

  function Recorded(t: Tables, rows: seq<Pending>): Tables {
    if rows == [] then t else InsertPending(Recorded(t, rows[..|rows| - 1]), rows[|rows| - 1])
  }

  function Deleted(t: Tables, ids: seq<ApprovalId>): Tables {
    if ids == [] then t else DeletePending(Deleted(t, ids[..|ids| - 1]), ids[|ids| - 1])
  }

  // The tables after a wait: other turns work on sessions and aliases and record
  // their approvals, and other passes delete theirs.
  function Waited(t: Tables, w: Wait): Tables {
    Deleted(Recorded(ApplyAll(t, w.ops), w.inserts), w.deletes)
  }

  lemma {:induction false} RecordedRows(t: Tables, rows: seq<Pending>, a: ApprovalId)
    ensures var named := exists j | 0 <= j < |rows| :: rows[j].approval == a;
            var u := Recorded(t, rows);
            && (a in u.pending <==> a in t.pending || named)
            && (a in u.pending && !named ==> u.pending[a] == t.pending[a])
  {
    if rows != [] {
      var init := rows[..|rows| - 1];
      RecordedRows(t, init, a);
      assert forall j | 0 <= j < |init| :: init[j] == rows[j];
    }
  }

  lemma {:induction false} DeletedRows(t: Tables, ids: seq<ApprovalId>, a: ApprovalId)
    ensures var u := Deleted(t, ids);
            && (a in u.pending <==> a in t.pending && a !in ids)
            && (a in u.pending ==> u.pending[a] == t.pending[a])
  {
    if ids != [] {
      var init := ids[..|ids| - 1];
      DeletedRows(t, init, a);
      assert ids == init + [ids[|ids| - 1]];
    }
  }

  lemma {:induction false} ApplyAllKeepsPending(t: Tables, ops: seq<Op>)
    ensures ApplyAll(t, ops).pending == t.pending
  {
    if ops != [] {
      ApplyAllKeepsPending(t, ops[..|ops| - 1]);
    }
  }

  // A row that nobody names in a wait is as before; what is there or recorded stays unless it is deleted.
  lemma WaitedRows(t: Tables, w: Wait, a: ApprovalId)
    ensures var later := Waited(t, w).pending;
            && (!Inserts(w, a) && a !in w.deletes ==>
                  (a in later <==> a in t.pending) && (a in later ==> later[a] == t.pending[a]))
            && (a in t.pending || Inserts(w, a) ==> a in later || a in w.deletes)
  {
    var worked := ApplyAll(t, w.ops);
    ApplyAllKeepsPending(t, w.ops);
    RecordedRows(worked, w.inserts, a);
    DeletedRows(Recorded(worked, w.inserts), w.deletes, a);
    hide Recorded, Deleted, ApplyAll;
  }

  method OthersWork(db: Database, w: Wait)
    requires Valid(db.State())
    modifies db
    ensures db.State() == Waited(old(db.State()), w) && Valid(db.State())
  {
    db.Perform(w.ops);
    ghost var worked := db.State();
    for n := 0 to |w.inserts|
      invariant db.State() == Recorded(worked, w.inserts[..n]) && Valid(db.State())
    {
      db.InsertPendingApproval(w.inserts[n]);
      assert w.inserts[..n + 1][..n] == w.inserts[..n];
    }
    assert w.inserts[..|w.inserts|] == w.inserts;
    for n := 0 to |w.deletes|
      invariant db.State() == Deleted(Recorded(worked, w.inserts), w.deletes[..n]) && Valid(db.State())
    {
      db.DeletePendingApproval(w.deletes[n]);
      assert w.deletes[..n + 1][..n] == w.deletes[..n];
    }
    assert w.deletes[..|w.deletes|] == w.deletes;
  }

  function ExpiredIds(rows: seq<Pending>, now: int): set<ApprovalId> {
    set i | 0 <= i < |rows| && Expired(rows[i], now) :: rows[i].approval
  }

  lemma ExpiredIdsSnoc(rows: seq<Pending>, n: nat, now: int)
    requires n < |rows|
    ensures ExpiredIds(rows[..n + 1], now) ==
            ExpiredIds(rows[..n], now) + if Expired(rows[n], now) then {rows[n].approval} else {}
  {
    var longer := rows[..n + 1];
    assert forall i | 0 <= i < n :: longer[i] == rows[..n][i];
    forall a | a in ExpiredIds(rows[..n], now) ensures a in ExpiredIds(longer, now) {
      var i :| 0 <= i < n && Expired(rows[..n][i], now) && rows[..n][i].approval == a;
      assert longer[i].approval == a;
    }
    assert longer[n] == rows[n];
  }

  // In a listing of the table, the expired ids are those of the expired rows.
  lemma ExpiredIdsOfListing(rows: seq<Pending>, pending: map<ApprovalId, Pending>, now: int)
    requires Listing(rows, pending) && forall a | a in pending :: pending[a].approval == a
    ensures pending - ExpiredIds(rows, now) == WithoutExpired(pending, now)
  {
    forall a | a in pending ensures a in ExpiredIds(rows, now) <==> Expired(pending[a], now) {
      var i :| 0 <= i < |rows| && rows[i] == pending[a];
      assert rows[i].approval == a;
    }
  }

  lemma LiveNext(rows: seq<Pending>, n: nat, now: int)
    requires n < |rows|
    ensures Live(rows[n..], now) == (if Expired(rows[n], now) then [] else [rows[n]]) + Live(rows[n + 1..], now)
  {
    assert rows[n..][1..] == rows[n + 1..];
  }

  lemma NothingExpired(now: int)
    ensures ExpiredIds([], now) == {} && Live([], now) == []
  {
  }

  lemma RemovedTwice(pending: map<ApprovalId, Pending>, xs: set<ApprovalId>, ys: set<ApprovalId>)
    ensures pending - xs - ys == pending - (xs + ys)
  {
  }

  lemma ExpiryInSeconds(rows: seq<Pending>, pending: map<ApprovalId, Pending>, now: int)
    ensures forall row | row in rows :: row in Live(rows, now) <==> now - row.createdAt <= 600
    ensures forall a | a in pending :: a in WithoutExpired(pending, now) <==> now - pending[a].createdAt <= 600
  {
    Approvals.LiveRows(rows, now);
  }

  // The first loop: rows past their time go, the others are live.
  method Expire(db: Database, rows: seq<Pending>, now: int) returns (live: seq<Pending>)
    requires Valid(db.State()) && Listing(rows, db.pending)
    modifies db
    ensures live == Live(rows, now) && Valid(db.State())
    ensures db.State() == old(db.State()).(pending := WithoutExpired(old(db.pending), now))
    ensures forall row | row in rows :: row in live <==> now - row.createdAt <= 600
    ensures forall a | a in old(db.pending) :: a in db.pending <==> now - old(db.pending)[a].createdAt <= 600
  {
    hide ExpiredIds, Listing, WithoutExpired, Live, Expired;
    live := [];
    NothingExpired(now);
    assert rows[0..] == rows && rows[..0] == [] && old(db.pending) - {} == old(db.pending);
    for n := 0 to |rows|
      invariant Valid(db.State()) && live + Live(rows[n..], now) == Live(rows, now)
      invariant db.State() == old(db.State()).(pending := old(db.pending) - ExpiredIds(rows[..n], now))
    {
      LiveNext(rows, n, now);
      ExpiredIdsSnoc(rows, n, now);
      RemovedTwice(old(db.pending), ExpiredIds(rows[..n], now), {rows[n].approval});
      if Expired(rows[n], now) {
        db.DeletePendingApproval(rows[n].approval);
      } else {
        assert ExpiredIds(rows[..n], now) + {} == ExpiredIds(rows[..n], now);
        live := live + [rows[n]];
      }
    }
    ExpiredIdsOfListing(rows, old(db.pending), now);
    assert rows[..|rows|] == rows && rows[|rows|..] == [];
    ExpiryInSeconds(rows, old(db.pending), now);
  }

  // ----- The second loop -----

  lemma KeptAtStart(v: View)
    ensures Kept(v, WithoutExpired(v.before, v.clock), 0, 0)
  {
  }

  lemma GoneNext(v: View, n: nat, a: ApprovalId)
    requires n < |v.live|
    ensures Gone(v, n + 1, a) <==> Gone(v, n, a) || (v.live[n].approval == a && Claims(v.live[n], v.states))
  {
    hide Claims;
  }

  lemma KeptClaim(v: View, table: map<ApprovalId, Pending>, n: nat, waits: nat)
    requires n < |v.live| && v.live[n].approval in v.before && Kept(v, table, n, waits)
    ensures Claims(v.live[n], v.states) ==> Kept(v, table - {v.live[n].approval}, n + 1, waits)
    ensures !Claims(v.live[n], v.states) ==> Kept(v, table, n + 1, waits)
  {
    hide Touched, Claims, Expired, Gone;
    forall a ensures Gone(v, n + 1, a) <==> Gone(v, n, a) || (v.live[n].approval == a && Claims(v.live[n], v.states)) {
      GoneNext(v, n, a);
    }
  }

  lemma KeptOthers(v: View, t: Tables, n: nat, waits: nat)
    requires n <= |v.live| && Kept(v, t.pending, n, waits)
    ensures Kept(v, Waited(t, WaitAt(v.script, waits)).pending, n, waits + 1)
  {
    var w := WaitAt(v.script, waits);
    hide Gone, Expired, Inserts, Waited;
    forall a {
      WaitedRows(t, w, a);
    }
    forall a ensures Inserts(w, a) || a in w.deletes ==> Touched(v.script, a)
      ensures a in w.deletes ==> DeletedByOthers(v.script, a)
    {
      NothingTouches(v.script, waits, a);
    }
    hide Touched, DeletedByOthers;
  }

  lemma NothingTouches(script: seq<Wait>, k: nat, a: ApprovalId)
    ensures Inserts(WaitAt(script, k), a) || a in WaitAt(script, k).deletes ==> Touched(script, a)
    ensures a in WaitAt(script, k).deletes ==> DeletedByOthers(script, a)
  {
  }

  method AwaitOthers(db: Database, script: seq<Wait>, waits: nat, ghost v: View, ghost n: nat)
    requires Valid(db.State()) && v.script == script && n <= |v.live| && Kept(v, db.pending, n, waits)
    modifies db
    ensures db.State() == Waited(old(db.State()), WaitAt(script, waits))
    ensures Valid(db.State()) && Kept(v, db.pending, n, waits + 1)
  {
    hide Kept, Waited;
    KeptOthers(v, db.State(), n, waits);
    OthersWork(db, WaitAt(script, waits));
  }

  // _resume_on_approval: the row is deleted first, and the session is resumed on
  // the tables without it, unless the room is not configured any more.
  method ResumeOnApproval(db: Database, agents: map<RoomId, AgentName>, row: Pending, script: seq<Wait>, waits: nat,
                          ghost v: View, ghost n: nat)
    returns (actions: seq<Action>, raised: bool, waits': nat)
    requires Valid(db.State()) && v.script == script && n < |v.live| && v.live[n] == row && row.approval in v.before
    requires Decided(row, v.states, ApprovedApproval) && Kept(v, db.pending, n, waits)
    modifies db
    ensures Valid(db.State()) && Kept(v, db.pending, n + 1, waits')
    ensures actions == Act(row, v.states, agents)
    ensures var claimed := DeletePending(old(db.State()), row.approval);
            if row.room in agents then
              && db.State() == Waited(claimed, WaitAt(script, waits))
              && raised == WaitAt(script, waits).raises && waits' == waits + 1
            else
              db.State() == claimed && !raised && waits' == waits
  {
    KeptClaim(v, db.pending, n, waits);
    hide Kept, Waited;
    db.DeletePendingApproval(row.approval);
    if row.room !in agents {
      return [], false, waits;
    }
    AwaitOthers(db, script, waits, v, n + 1);
    return [Resumed(row)], WaitAt(script, waits).raises, waits + 1;
  }

  // A denied row is deleted, then the note is posted on the tables without it, and
  // then, on what others have made of them meanwhile, the note's event is aliased.
  method AnswerDenied(db: Database, row: Pending, script: seq<Wait>, waits: nat, ghost v: View, ghost n: nat,
                      ghost agents: map<RoomId, AgentName>)
    returns (actions: seq<Action>, raised: bool, waits': nat)
    requires Valid(db.State()) && v.script == script && n < |v.live| && v.live[n] == row && row.approval in v.before
    requires Decided(row, v.states, DeniedApproval) && Kept(v, db.pending, n, waits)
    modifies db
    ensures Valid(db.State()) && Kept(v, db.pending, n + 1, waits')
    ensures actions == Act(row, v.states, agents) && waits' == waits + 1
    ensures var posted := Waited(DeletePending(old(db.State()), row.approval), WaitAt(script, waits));
            var alias := Store.RegisterAlias(posted, WaitAt(script, waits).event, row.root);
            && (raised <==> WaitAt(script, waits).raises || alias.Err?)
            && db.State() == if raised then posted else alias.value
  {
    KeptClaim(v, db.pending, n, waits);
    hide Kept, Waited;
    db.DeletePendingApproval(row.approval);
    actions, waits' := [Noted(row)], waits + 1;
    AwaitOthers(db, script, waits, v, n + 1);
    if WaitAt(script, waits).raises {
      return actions, true, waits';
    }
    var refused := db.RegisterAlias(WaitAt(script, waits).event, row.root);
    return actions, refused.Some?, waits';
  }

  lemma ActsNext(live: seq<Pending>, n: nat, states: map<ApprovalId, ApprovalState>, agents: map<RoomId, AgentName>)
    requires n < |live|
    ensures Acts(live[..n + 1], states, agents) == Acts(live[..n], states, agents) + Act(live[n], states, agents)
  {
    assert live[..n + 1][..n] == live[..n];
  }

  lemma LiveInTable(rows: seq<Pending>, table: map<ApprovalId, Pending>, now: int)
    requires Listing(rows, table)
    ensures forall i | 0 <= i < |Live(rows, now)| :: Live(rows, now)[i].approval in table
  {
    Approvals.LiveRows(rows, now);
    forall i | 0 <= i < |Live(rows, now)| ensures Live(rows, now)[i].approval in table {
      assert Live(rows, now)[i] in Live(rows, now);
    }
  }

  // What a pass makes of one row it read, by the clock. A row older than 600 seconds
  // goes without being acted on. Any other goes only if it was reported as decided,
  // and is acted on only as that says; a pass that does not raise does act on it.
  // What others do to the row meanwhile is another matter.
  predicate ByTheClock(row: Pending, after: map<ApprovalId, Pending>, actions: seq<Action>, raised: bool, touched: bool,
                       states: map<ApprovalId, ApprovalState>, agents: map<RoomId, AgentName>, now: int)
  {
    var told := if row.approval in states then states[row.approval] else PendingApproval;
    if now - row.createdAt >= 601 then
      Resumed(row) !in actions && Noted(row) !in actions && (!touched ==> row.approval !in after)
    else
      && (!touched && row.approval !in after ==> told == ApprovedApproval || told == DeniedApproval)
      && (!touched && row.approval in after ==> after[row.approval] == row)
      && (Resumed(row) in actions ==> told == ApprovedApproval && row.room in agents)
      && (Noted(row) in actions ==> told == DeniedApproval)
      && (!raised && told == ApprovedApproval ==> (!touched ==> row.approval !in after))
      && (!raised && told == ApprovedApproval && row.room in agents ==> Resumed(row) in actions)
      && (!raised && told == DeniedApproval ==> Noted(row) in actions && (!touched ==> row.approval !in after))
  }

  lemma KeptRow(snapshot: seq<Pending>, table: map<ApprovalId, Pending>, after: map<ApprovalId, Pending>,
                script: seq<Wait>, states: map<ApprovalId, ApprovalState>, now: int, seen: nat, waits: nat,
                row: Pending)
    requires Listing(snapshot, table) && row in snapshot && seen <= |Live(snapshot, now)|
    requires Kept(View(table, script, Live(snapshot, now), states, now), after, seen, waits)
    requires !Touched(script, row.approval)
    ensures row.approval in after <==>
            now - row.createdAt <= 600 && !(row in Live(snapshot, now)[..seen] && Claims(row, states))
    ensures row.approval in after ==> after[row.approval] == row
  {
    PassIsExact(snapshot, table, script, states, map[], now, seen, row);
    assert table[row.approval] == row;
    hide Acts, Live, Gone, Touched, Listing, Claims;
  }

  lemma KeptByTheClock(snapshot: seq<Pending>, table: map<ApprovalId, Pending>, after: map<ApprovalId, Pending>,
                       script: seq<Wait>, states: map<ApprovalId, ApprovalState>, agents: map<RoomId, AgentName>,
                       now: int, seen: nat, waits: nat, row: Pending)
    requires Listing(snapshot, table) && row in snapshot && seen <= |Live(snapshot, now)|
    requires Kept(View(table, script, Live(snapshot, now), states, now), after, seen, waits)
    ensures ByTheClock(row, after, Acts(Live(snapshot, now)[..seen], states, agents), seen < |Live(snapshot, now)|,
                       Touched(script, row.approval), states, agents, now)
  {
    var live := Live(snapshot, now);
    PassIsExact(snapshot, table, script, states, agents, now, seen, row);
    if !Touched(script, row.approval) {
      KeptRow(snapshot, table, after, script, states, now, seen, waits, row);
    }
    assert row in live[..seen] ==> row in live;
    assert seen == |live| ==> live[..seen] == live;
    CountIsMembership(Acts(live[..seen], states, agents), row);
    hide Kept, Acts, Live, Gone, Touched, Listing;
  }

  lemma PassByTheClock(snapshot: seq<Pending>, table: map<ApprovalId, Pending>, after: map<ApprovalId, Pending>,
                       script: seq<Wait>, states: map<ApprovalId, ApprovalState>, agents: map<RoomId, AgentName>,
                       now: int, seen: nat, waits: nat, actions: seq<Action>, raised: bool)
    requires Listing(snapshot, table) && seen <= |Live(snapshot, now)| && (!raised ==> seen == |Live(snapshot, now)|)
    requires Kept(View(table, script, Live(snapshot, now), states, now), after, seen, waits)
    requires actions == Acts(Live(snapshot, now)[..seen], states, agents)
    ensures forall row | row in snapshot ::
              ByTheClock(row, after, actions, raised, Touched(script, row.approval), states, agents, now)
  {
    hide Listing, Kept, Acts, Live, Touched;
    forall row | row in snapshot
      ensures ByTheClock(row, after, actions, raised, Touched(script, row.approval), states, agents, now)
    {
      KeptByTheClock(snapshot, table, after, script, states, agents, now, seen, waits, row);
    }
  }

  lemma CountIsMembership(actions: seq<Action>, row: Pending)
    ensures Resumed(row) in actions <==> multiset(actions)[Resumed(row)] > 0
    ensures Noted(row) in actions <==> multiset(actions)[Noted(row)] > 0
  {
  }

  // One pass. snapshot is what it read, and seen how many live rows it got to:
  // all of them, unless it raised, at the last one seen. Rows seen and decided
  // are claimed and acted on; the others are as they were.
  method ReconcileOnce(db: Database, enabled: bool, agents: map<RoomId, AgentName>,
                       states: map<ApprovalId, ApprovalState>, now: int, script: seq<Wait>)
    returns (actions: seq<Action>, raised: bool, ghost snapshot: seq<Pending>, ghost seen: nat, waits: nat)
    requires Valid(db.State())
    modifies db
    ensures Valid(db.State())
    ensures !enabled ==> db.State() == old(db.State()) && actions == [] && !raised && snapshot == []
    ensures enabled ==>
              && Listing(snapshot, old(db.pending))
              && var v := View(old(db.pending), script, Live(snapshot, now), states, now);
                 && seen <= |v.live| && (!raised ==> seen == |v.live|)
                 && actions == Acts(v.live[..seen], states, agents)
                 && Kept(v, db.pending, seen, waits)
    ensures enabled ==>
              forall row | row in snapshot ::
                ByTheClock(row, db.pending, actions, raised, Touched(script, row.approval), states, agents, now)
  {
    hide ByTheClock, Touched;
    actions, raised, snapshot, seen, waits := [], false, [], 0, 0;
    if !enabled {
      return;
    }
    var rows := db.GetPendingApprovals();
    snapshot := rows;
    var live := Expire(db, rows, now);
    ghost var v := View(old(db.pending), script, live, states, now);
    KeptAtStart(v);
    if live == [] {
      PassByTheClock(snapshot, v.before, db.pending, script, states, agents, now, seen, waits, actions, raised);
      return;
    }
    LiveInTable(rows, v.before, now);
    hide Acts, Kept, Live, Listing, WithoutExpired, Expired;
    AwaitOthers(db, script, 0, v, 0);
    waits := 1;
    for i := 0 to |live|
      invariant Valid(db.State())
      invariant actions == Acts(live[..i], states, agents)
      invariant Kept(v, db.pending, i, waits) && seen == i && !raised
    {
      var row, did := live[i], [];
      ActsNext(live, i, states, agents);
      if row.approval in states && states[row.approval] == ApprovedApproval {
        did, raised, waits := ResumeOnApproval(db, agents, row, script, waits, v, i);
      } else if row.approval in states && states[row.approval] == DeniedApproval {
        did, raised, waits := AnswerDenied(db, row, script, waits, v, i, agents);
      } else {
        KeptClaim(v, db.pending, i, waits);
      }
      actions, seen := actions + did, i + 1;
      if raised {
        PassByTheClock(snapshot, v.before, db.pending, script, states, agents, now, seen, waits, actions, raised);
        return;
      }
    }
    assert live[..|live|] == live;
    PassByTheClock(snapshot, v.before, db.pending, script, states, agents, now, seen, waits, actions, raised);
  }

  // ----- What a pass amounts to -----

  // How often a pass resumed for, or answered, this row.
  function Times(actions: seq<Action>, row: Pending): nat {
    multiset(actions)[Resumed(row)] + multiset(actions)[Noted(row)]
  }

  lemma {:induction false} ActsOf(live: seq<Pending>, n: nat, states: map<ApprovalId, ApprovalState>,
                                  agents: map<RoomId, AgentName>, row: Pending)
    requires Approvals.DistinctRows(live) && n <= |live|
    ensures multiset(Acts(live[..n], states, agents))[Resumed(row)] ==
            if row in live[..n] && Decided(row, states, ApprovedApproval) && row.room in agents then 1 else 0
    ensures multiset(Acts(live[..n], states, agents))[Noted(row)] ==
            if row in live[..n] && Decided(row, states, DeniedApproval) then 1 else 0
  {
    if n > 0 {
      var m, last := n - 1, live[n - 1];
      ActsOf(live, m, states, agents, row);
      ActsNext(live, m, states, agents);
      InPrefix(live, m, row);
      var before, now := Acts(live[..m], states, agents), Act(last, states, agents);
      ActCounts(last, states, agents, row);
      assert multiset(before + now) == multiset(before) + multiset(now);
      hide Acts, Act, Approvals.DistinctRows;
    }
  }

  lemma InPrefix(live: seq<Pending>, m: nat, row: Pending)
    requires Approvals.DistinctRows(live) && m < |live|
    ensures row in live[..m + 1] <==> row in live[..m] || row == live[m]
    ensures row == live[m] ==> row !in live[..m]
  {
    assert live[..m + 1] == live[..m] + [live[m]];
  }

  lemma ActCounts(done: Pending, states: map<ApprovalId, ApprovalState>, agents: map<RoomId, AgentName>, row: Pending)
    ensures multiset(Act(done, states, agents))[Resumed(row)] ==
            if row == done && Decided(row, states, ApprovedApproval) && row.room in agents then 1 else 0
    ensures multiset(Act(done, states, agents))[Noted(row)] ==
            if row == done && Decided(row, states, DeniedApproval) then 1 else 0
  {
  }

  // However far a pass got: a row it acted on is gone and was acted on once, as
  // its state demanded, and a row it did not get to was not acted on. Of the rows
  // it got to, the claimed ones are gone and the others are not.
  lemma PassIsExact(snapshot: seq<Pending>, table: map<ApprovalId, Pending>, script: seq<Wait>,
                    states: map<ApprovalId, ApprovalState>, agents: map<RoomId, AgentName>, now: int, seen: nat,
                    row: Pending)
    requires Listing(snapshot, table) && row in snapshot && seen <= |Live(snapshot, now)|
    ensures var v := View(table, script, Live(snapshot, now), states, now);
            var actions := Acts(v.live[..seen], states, agents);
            && (multiset(actions)[Resumed(row)] ==
                if row in v.live[..seen] && Decided(row, states, ApprovedApproval) && row.room in agents then 1 else 0)
            && (multiset(actions)[Noted(row)] ==
                if row in v.live[..seen] && Decided(row, states, DeniedApproval) then 1 else 0)
            && (Gone(v, seen, row.approval) <==> row in v.live[..seen] && Claims(row, states))
            && (row in v.live <==> now - row.createdAt <= 600)
            && Times(actions, row) <= 1 && (Times(actions, row) == 1 ==> Gone(v, seen, row.approval))
  {
    var v := View(table, script, Live(snapshot, now), states, now);
    Approvals.LiveRows(snapshot, now);
    Approvals.LiveDistinct(snapshot, now);
    ActsOf(v.live, seen, states, agents, row);
    hide Claims, Acts;
    if i :| 0 <= i < seen && v.live[i].approval == row.approval && Claims(v.live[i], states) {
      assert v.live[i] in v.live && v.live[i] in snapshot;
      assert v.live[i] == row;
      assert v.live[..seen][i] == row;
    }
    if row in v.live[..seen] {
      var i :| 0 <= i < seen && v.live[..seen][i] == row;
      assert v.live[i] == row;
    }
  }

  // A finished pass partitions what it read: expired rows go unacted, approved
  // ones go with one resume (with none if their room is not configured), denied
  // ones go with one note, and the rest stay.
  lemma FinishedPassPartitions(snapshot: seq<Pending>, table: map<ApprovalId, Pending>, after: map<ApprovalId, Pending>,
                               script: seq<Wait>, states: map<ApprovalId, ApprovalState>,
                               agents: map<RoomId, AgentName>,
                               now: int, waits: nat, row: Pending)
    requires Listing(snapshot, table) && row in snapshot && !Touched(script, row.approval)
    requires Kept(View(table, script, Live(snapshot, now), states, now), after, |Live(snapshot, now)|, waits)
    ensures var actions := Acts(Live(snapshot, now), states, agents);
            var resumed, noted := multiset(actions)[Resumed(row)], multiset(actions)[Noted(row)];
            if now - row.createdAt >= 601 then row.approval !in after && resumed == 0 && noted == 0
            else if Decided(row, states, ApprovedApproval) then
              row.approval !in after && noted == 0 && resumed == (if row.room in agents then 1 else 0)
            else if Decided(row, states, DeniedApproval) then row.approval !in after && noted == 1 && resumed == 0
            else row.approval in after && after[row.approval] == row && resumed == 0 && noted == 0
  {
    var v := View(table, script, Live(snapshot, now), states, now);
    PassIsExact(snapshot, table, script, states, agents, now, |v.live|, row);
    assert v.live[..|v.live|] == v.live;
    assert table[row.approval] == row;
    hide Acts, Live, Gone, Touched, Listing;
  }

  // Wherever a pass stopped: a row that is still there is as it was and has not
  // been acted on; a row that is gone was acted on at most once, and not at all
  // if it had expired.
  lemma PassLeavesRow(snapshot: seq<Pending>, table: map<ApprovalId, Pending>, after: map<ApprovalId, Pending>,
                      script: seq<Wait>, states: map<ApprovalId, ApprovalState>, agents: map<RoomId, AgentName>,
                      now: int, seen: nat, waits: nat, row: Pending)
    requires Listing(snapshot, table) && row in snapshot && !Touched(script, row.approval)
    requires seen <= |Live(snapshot, now)|
    requires Kept(View(table, script, Live(snapshot, now), states, now), after, seen, waits)
    ensures var times := Times(Acts(Live(snapshot, now)[..seen], states, agents), row);
            if row.approval in after then after[row.approval] == row && times == 0
            else times <= 1 && (now - row.createdAt >= 601 ==> times == 0)
  {
    PassIsExact(snapshot, table, script, states, agents, now, seen, row);
    assert table[row.approval] == row;
    assert row in Live(snapshot, now)[..seen] ==> row in Live(snapshot, now);
    hide Acts, Live, Gone, Touched, Listing;
  }

  // What the state machine's pass makes of one row.
  predicate ActsOn(s: State, u: State, row: Pending, act: seq<Action>) {
    && (act == [Resumed(row)] <==> u.pass.Resuming?) && (act == [Noted(row)] <==> u.pass.Denying?)
    && (act == [] <==> u.pass.Acting?)
    && (u.pass.Denying? ==> u.pass.row == row)
    && (u.pass.Resuming? ==>
          && RECONCILER in u.tasks && u.tasks[RECONCILER].origin == Approved(row.approval)
          && TurnOf(u.tasks[RECONCILER]) == RowTurn(row))
  }

  lemma CasesActOn(s: State, row: Pending, rest: seq<Pending>, states: map<ApprovalId, ApprovalState>)
    ensures var u := Claim(s, row, rest, states);
            ActsOn(s, u, row, [Resumed(row)]) && u.db.pending == s.db.pending - {row.approval}
    ensures var u := Drop(s, row, rest, states);
            ActsOn(s, u, row, []) && u.db.pending == s.db.pending - {row.approval}
    ensures var u := Deny(s, row, rest, states);
            ActsOn(s, u, row, [Noted(row)]) && u.db.pending == s.db.pending - {row.approval}
    ensures ActsOn(s, s.(pass := Acting(rest, states)), row, [])
  {
  }

  // The state machine's pass claims a row and acts on it as the pass of this module does.
  lemma PassActIsAct(s: State)
    requires PassActStep(s).Some? && s.pass.todo != []
    ensures var row, u := s.pass.todo[0], PassActStep(s).value;
            && ActsOn(s, u, row, Act(row, s.pass.states, s.agents))
            && u.db.pending == if Claims(row, s.pass.states) then s.db.pending - {row.approval} else s.db.pending
  {
    CasesActOn(s, s.pass.todo[0], s.pass.todo[1..], s.pass.states);
    hide Decided, Claim, Drop, Deny, ActsOn;
  }
}
