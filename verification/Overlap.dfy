// Reconcile passes that run at the same time over one pending_approvals table.
// reconcile_loop never does that; this is why it must not.
module Overlap {
  import opened Prelude
  import opened Store
  import opened Dispatching
  import opened Reconcile
  import Approvals

  type PassId = nat

  datatype Stage =
    | Asking                            // get_approval_states
    | Working                           // about to look at the next live row
    | Nudging                           // the last row looked at is claimed, its session about to be resumed
    | Answering                         // the last row looked at is claimed, its note about to be posted
    | Ended(finished: bool, at: nat)    // returned, or raised

  // A pass: what it read, when and at what time of day, what the registry told
  // it, how many live rows it has looked at, and how many it is done with.
  datatype Log = Log(snapshot: seq<Pending>, readAt: nat, clock: int, told: map<ApprovalId, ApprovalState>,
                     looked: nat, done: nat, stage: Stage)

  datatype Entry = Entry(row: Pending, at: nat)

  datatype Resume = Resume(pass: PassId, row: Pending)

  // The shared table and all passes so far; time counts the steps, and says when
  // a row was recorded and when it left the table.
  datatype World = World(
    agents: map<RoomId, AgentName>,
    pending: map<ApprovalId, Pending>,
    passes: map<PassId, Log>,
    time: nat,
    recorded: map<ApprovalId, Entry>,
    removedAt: map<ApprovalId, nat>,
    resumes: seq<Resume>)

  datatype Move =
    | Arrive(row: Pending)
    | Read(pass: PassId, rows: seq<Pending>, now: int)
    | Told(pass: PassId, states: map<ApprovalId, ApprovalState>)
    | Look(pass: PassId)
    | Nudge(pass: PassId)
    | Answer(pass: PassId)
    | Raise(pass: PassId)

  predicate Start(w: World) {
    w.pending == map[] && w.passes == map[] && w.recorded == map[] && w.removedAt == map[] && w.resumes == []
  }

  function LiveOf(l: Log): seq<Pending> {
    Live(l.snapshot, l.clock)
  }

  function Update(w: World, p: PassId, l: Log): World {
    w.(passes := w.passes[p := l], time := w.time + 1)
  }

  // DELETE does not say whether there was a row.
  function Delete(w: World, a: ApprovalId): World {
    w.(pending := w.pending - {a}, removedAt := if a in w.pending then w.removedAt[a := w.time] else w.removedAt)
  }

  // An approval is recorded once.
  function ArriveMove(w: World, row: Pending): Option<World> {
    if row.approval in w.recorded then None
    else
      Some(w.(pending := w.pending[row.approval := row],
              recorded := w.recorded[row.approval := Entry(row, w.time)], time := w.time + 1))
  }

  function ExpiredKeys(pending: map<ApprovalId, Pending>, now: int): set<ApprovalId> {
    set a | a in pending && Expired(pending[a], now)
  }

  function RemovedNow(w: World, ids: set<ApprovalId>): map<ApprovalId, nat> {
    if ids == {} then w.removedAt else w.removedAt + map a | a in ids :: w.time
  }

  // The rows are read and the expired ones deleted, without an await in between.
  function ReadMove(w: World, p: PassId, rows: seq<Pending>, now: int): Option<World> {
    if p in w.passes || !Listing(rows, w.pending) then None
    else
      var stage := if Live(rows, now) == [] then Ended(true, w.time) else Asking;
      Some(Update(w, p, Log(rows, w.time, now, map[], 0, 0, stage))
             .(pending := WithoutExpired(w.pending, now), removedAt := RemovedNow(w, ExpiredKeys(w.pending, now))))
  }

  function ToldMove(w: World, p: PassId, states: map<ApprovalId, ApprovalState>): Option<World> {
    if p !in w.passes || !w.passes[p].stage.Asking? then None
    else Some(Update(w, p, w.passes[p].(told := states, stage := Working)))
  }

  // The table after a pass has looked at its next live row: the row is claimed if it is decided.
  function Claimed(w: World, l: Log): World {
    if l.looked < |LiveOf(l)| && Claims(LiveOf(l)[l.looked], l.told) then Delete(w, LiveOf(l)[l.looked].approval) else w
  }

  // The pass after that: it acts on the row after an await, or goes on, or is through.
  function LookedOn(w: World, l: Log): Log {
    if l.looked >= |LiveOf(l)| then l.(stage := Ended(true, w.time))
    else
      var act := Act(LiveOf(l)[l.looked], l.told, w.agents);
      if act == [Resumed(LiveOf(l)[l.looked])] then l.(looked := l.looked + 1, stage := Nudging)
      else l.(looked := l.looked + 1, done := l.looked + 1, stage := if act == [] then Working else Answering)
  }

  function LookMove(w: World, p: PassId): Option<World> {
    if p !in w.passes || !w.passes[p].stage.Working? then None
    else Some(Update(Claimed(w, w.passes[p]), p, LookedOn(w, w.passes[p])))
  }

  function NudgeMove(w: World, p: PassId): Option<World> {
    if p !in w.passes || !w.passes[p].stage.Nudging? then None
    else
      var l := w.passes[p];
      var k := if 0 < l.looked <= |LiveOf(l)| then l.looked - 1 else 0;
      if k >= |LiveOf(l)| then None
      else
        Some(Update(w, p, l.(done := l.looked, stage := Working)).(resumes := w.resumes + [Resume(p, LiveOf(l)[k])]))
  }

  function AnswerMove(w: World, p: PassId): Option<World> {
    if p !in w.passes || !w.passes[p].stage.Answering? then None
    else Some(Update(w, p, w.passes[p].(stage := Working)))
  }

  function RaiseMove(w: World, p: PassId): Option<World> {
    if p !in w.passes || w.passes[p].stage.Ended? then None
    else Some(Update(w, p, w.passes[p].(stage := Ended(false, w.time))))
  }

  function After(w: World, m: Move): Option<World> {
    match m
    case Arrive(row) => ArriveMove(w, row)
    case Read(p, rows, now) => ReadMove(w, p, rows, now)
    case Told(p, states) => ToldMove(w, p, states)
    case Look(p) => LookMove(w, p)
    case Nudge(p) => NudgeMove(w, p)
    case Answer(p) => AnswerMove(w, p)
    case Raise(p) => RaiseMove(w, p)
  }

  ghost predicate Interleaving(worlds: seq<World>, moves: seq<Move>) {
    && |worlds| == |moves| + 1
    && Start(worlds[0])
    && forall i | 0 <= i < |moves| :: After(worlds[i], moves[i]) == Some(worlds[i + 1])
  }

  // ----- The invariant -----

  // The table is what was recorded and has not been removed.
  ghost predicate TableOk(w: World) {
    && (forall a | a in w.recorded :: w.recorded[a].row.approval == a && w.recorded[a].at < w.time)
    && (forall a | a in w.removedAt :: a in w.recorded && w.recorded[a].at < w.removedAt[a] < w.time)
    && (forall a :: a in w.pending <==> a in w.recorded && a !in w.removedAt)
    && (forall a | a in w.pending :: w.pending[a] == w.recorded[a].row)
  }

  // The row was in the table when the pass read it.
  predicate WasThere(w: World, l: Log, row: Pending) {
    && row.approval in w.recorded && w.recorded[row.approval].row == row && w.recorded[row.approval].at < l.readAt
    && (row.approval in w.removedAt ==> l.readAt <= w.removedAt[row.approval])
  }

  // A row removed when the pass read the table had expired, and the pass removed all such.
  ghost predicate ReadOk(w: World, l: Log) {
    && l.readAt < w.time && Approvals.DistinctRows(l.snapshot)
    && (forall row :: row in l.snapshot <==> WasThere(w, l, row))
    && (forall a | a in w.removedAt && a in w.recorded && w.removedAt[a] == l.readAt ::
          Expired(w.recorded[a].row, l.clock))
  }

  predicate ClaimsOk(w: World, l: Log) {
    && l.done <= l.looked <= |LiveOf(l)|
    && (l.stage.Asking? ==> l.looked == 0)
    && (l.stage.Working? || l.stage.Answering? ==> l.done == l.looked)
    && (l.stage.Nudging? ==>
          l.looked == l.done + 1 && Act(LiveOf(l)[l.done], l.told, w.agents) == [Resumed(LiveOf(l)[l.done])])
    && (l.stage.Ended? ==> l.stage.at < w.time && (l.stage.finished ==> l.done == |LiveOf(l)|))
    && (forall i | 0 <= i < l.looked && Claims(LiveOf(l)[i], l.told) ::
          && LiveOf(l)[i].approval in w.removedAt
          && (l.stage.Ended? ==> w.removedAt[LiveOf(l)[i].approval] <= l.stage.at))
  }

  function ResumesBy(w: World, p: PassId, row: Pending): nat {
    multiset(w.resumes)[Resume(p, row)]
  }

  predicate Fires(w: World, l: Log, row: Pending) {
    Decided(row, l.told, ApprovedApproval) && row.room in w.agents
  }

  predicate ResumesOk(w: World, p: PassId, row: Pending) {
    ResumesBy(w, p, row) ==
    if p in w.passes && w.passes[p].done <= |LiveOf(w.passes[p])| && row in LiveOf(w.passes[p])[..w.passes[p].done] &&
       Fires(w, w.passes[p], row) then 1 else 0
  }

  ghost predicate Inv(w: World) {
    && TableOk(w)
    && (forall p | p in w.passes :: ReadOk(w, w.passes[p]) && ClaimsOk(w, w.passes[p]))
    && (forall p, row :: ResumesOk(w, p, row))
  }

  lemma InvAtStart(w: World)
    requires Start(w)
    ensures Inv(w)
  {
  }

  // Time goes on: rows are recorded and removed now, and none earlier.
  ghost predicate Later(w: World, u: World) {
    && u.agents == w.agents && u.time == w.time + 1
    && (forall a | a in w.recorded :: a in u.recorded && u.recorded[a] == w.recorded[a])
    && (forall a | a in u.recorded && a !in w.recorded :: u.recorded[a].at == w.time)
    && (forall a | a in w.removedAt :: a in u.removedAt && u.removedAt[a] == w.removedAt[a])
    && (forall a | a in u.removedAt && a !in w.removedAt :: u.removedAt[a] == w.time && a in w.recorded)
  }

  // What passes have read and claimed stays so.
  lemma LogsStay(w: World, u: World, l: Log)
    requires TableOk(w) && Later(w, u) && ReadOk(w, l) && ClaimsOk(w, l)
    ensures ReadOk(u, l) && ClaimsOk(u, l)
  {
    forall row ensures WasThere(u, l, row) <==> WasThere(w, l, row) {
    }
    hide WasThere, LiveOf, Approvals.DistinctRows;
  }

  // A pass moves on, and the others stay as they are.
  lemma PassMoves(w: World, u: World, p: PassId, l: Log)
    requires Inv(w) && TableOk(u) && Later(w, u) && u.passes == w.passes[p := l]
    requires ReadOk(u, l) && ClaimsOk(u, l)
    requires forall q, row :: ResumesOk(u, q, row)
    ensures Inv(u)
  {
    forall q | q in u.passes ensures ReadOk(u, u.passes[q]) && ClaimsOk(u, u.passes[q]) {
      if q != p {
        LogsStay(w, u, w.passes[q]);
      }
    }
    hide TableOk, ReadOk, ClaimsOk, ResumesOk;
  }

  lemma ArriveTable(w: World, row: Pending)
    requires TableOk(w) && ArriveMove(w, row).Some?
    ensures TableOk(ArriveMove(w, row).value) && Later(w, ArriveMove(w, row).value)
  {
  }

  lemma ArriveKeeps(w: World, row: Pending)
    requires Inv(w) && ArriveMove(w, row).Some?
    ensures Inv(ArriveMove(w, row).value)
  {
    var u := ArriveMove(w, row).value;
    ArriveTable(w, row);
    hide TableOk, ReadOk, ClaimsOk, Later, WasThere;
    forall p | p in u.passes ensures ReadOk(u, u.passes[p]) && ClaimsOk(u, u.passes[p]) {
      LogsStay(w, u, w.passes[p]);
    }
    forall p, r ensures ResumesOk(u, p, r) {
      assert ResumesOk(w, p, r);
    }
    hide ResumesOk;
  }

  // The same resumes, for passes that are as far as before.
  lemma SameResumes(w: World, u: World, p: PassId, l: Log)
    requires Inv(w) && u.agents == w.agents && u.resumes == w.resumes && u.passes == w.passes[p := l]
    requires l.done <= |LiveOf(l)|
    requires if p in w.passes then
               && LiveOf(l) == LiveOf(w.passes[p])
               && (l.told == w.passes[p].told || w.passes[p].done == 0)
               && w.passes[p].done <= l.done
               && forall i | w.passes[p].done <= i < l.done :: !Fires(u, l, LiveOf(l)[i])
             else l.done == 0
    ensures forall q, row :: ResumesOk(u, q, row)
  {
    forall q, row ensures ResumesOk(u, q, row) {
      assert ResumesOk(w, q, row);
      if q == p && p in w.passes {
        assert ClaimsOk(w, w.passes[p]);
        InLonger(LiveOf(l), w.passes[p].done, l.done, row);
      }
    }
  }

  lemma InLonger(live: seq<Pending>, m: nat, n: nat, row: Pending)
    requires m <= n <= |live|
    ensures row in live[..n] <==> row in live[..m] || exists i | m <= i < n :: live[i] == row
  {
    if row in live[..n] {
      var i :| 0 <= i < n && live[..n][i] == row;
      assert live[i] == row && (i < m ==> live[..m][i] == row);
    }
    assert forall i | 0 <= i < m :: live[..m][i] == live[..n][i];
    assert forall i | m <= i < n :: live[..n][i] == live[i];
  }

  // ----- Reading the table -----

  // These rows leave the table now.
  ghost predicate Removes(w: World, u: World, ids: set<ApprovalId>) {
    && u.agents == w.agents && u.recorded == w.recorded && u.time == w.time + 1 && ids <= w.pending.Keys
    && (forall a :: a in u.pending <==> a in w.pending && a !in ids)
    && (forall a | a in u.pending :: u.pending[a] == w.pending[a])
    && (forall a :: a in u.removedAt <==> a in w.removedAt || a in ids)
    && (forall a | a in u.removedAt :: u.removedAt[a] == if a in ids then w.time else w.removedAt[a])
  }

  lemma RemovedTable(w: World, u: World, ids: set<ApprovalId>)
    requires TableOk(w) && Removes(w, u, ids)
    ensures TableOk(u)
  {
  }

  lemma RemovedLater(w: World, u: World, ids: set<ApprovalId>)
    requires TableOk(w) && Removes(w, u, ids)
    ensures Later(w, u)
  {
  }

  // The table is as it was, or one row of it is gone.
  lemma DeleteIsLater(w: World, u: World, a: ApprovalId)
    requires TableOk(w) && u.agents == w.agents && u.recorded == w.recorded && u.time == w.time + 1
    requires (u.pending == w.pending && u.removedAt == w.removedAt) ||
             (u.pending == Delete(w, a).pending && u.removedAt == Delete(w, a).removedAt)
    ensures TableOk(u) && Later(w, u)
  {
    var ids := if u.pending == w.pending then {} else {a};
    assert Removes(w, u, ids) by {
      assert TableOk(w);
    }
    hide Removes, TableOk, Later, Delete;
    RemovedTable(w, u, ids);
    RemovedLater(w, u, ids);
  }

  lemma ReadRemoves(w: World, p: PassId, rows: seq<Pending>, now: int)
    requires ReadMove(w, p, rows, now).Some?
    ensures Removes(w, ReadMove(w, p, rows, now).value, ExpiredKeys(w.pending, now))
  {
    RemovedKeys(w, ExpiredKeys(w.pending, now));
    hide Live, Listing, RemovedNow, Expired;
  }

  lemma ReadTable(w: World, p: PassId, rows: seq<Pending>, now: int)
    requires TableOk(w) && ReadMove(w, p, rows, now).Some?
    ensures TableOk(ReadMove(w, p, rows, now).value) && Later(w, ReadMove(w, p, rows, now).value)
  {
    ReadRemoves(w, p, rows, now);
    hide TableOk, Later, ReadMove, Removes, ExpiredKeys;
    RemovedTable(w, ReadMove(w, p, rows, now).value, ExpiredKeys(w.pending, now));
    RemovedLater(w, ReadMove(w, p, rows, now).value, ExpiredKeys(w.pending, now));
  }

  lemma RemovedKeys(w: World, ids: set<ApprovalId>)
    ensures var after := RemovedNow(w, ids);
            && (forall a :: a in after <==> a in w.removedAt || a in ids)
            && (forall a | a in after :: after[a] == if a in ids then w.time else w.removedAt[a])
  {
  }

  // A listing holds exactly the rows of the table.
  lemma ListingHolds(rows: seq<Pending>, pending: map<ApprovalId, Pending>, row: Pending)
    requires Listing(rows, pending) && forall a | a in pending :: pending[a].approval == a
    ensures row in rows <==> row.approval in pending && pending[row.approval] == row
  {
  }

  // What a pass reads is what is in the table, and what expired it removes.
  lemma ReadWasThere(w: World, u: World, l: Log, ids: set<ApprovalId>, row: Pending)
    requires TableOk(w) && Removes(w, u, ids) && l.readAt == w.time
    requires row in l.snapshot <==> row.approval in w.pending && w.pending[row.approval] == row
    ensures row in l.snapshot <==> WasThere(u, l, row)
  {
  }

  lemma ReadExpires(w: World, u: World, l: Log, a: ApprovalId)
    requires TableOk(w) && Removes(w, u, ExpiredKeys(w.pending, l.clock)) && l.readAt == w.time
    ensures a in u.removedAt && a in u.recorded && u.removedAt[a] == l.readAt ==> Expired(u.recorded[a].row, l.clock)
  {
    hide Expired;
  }

  lemma ReadLog(w: World, p: PassId, rows: seq<Pending>, now: int)
    requires TableOk(w) && ReadMove(w, p, rows, now).Some?
    ensures var u := ReadMove(w, p, rows, now).value; ReadOk(u, u.passes[p])
  {
    var u := ReadMove(w, p, rows, now).value;
    var l, ids := u.passes[p], ExpiredKeys(w.pending, now);
    assert Approvals.DistinctRows(rows);
    ReadRemoves(w, p, rows, now);
    hide Live, WithoutExpired, RemovedNow, Expired, ExpiredKeys, WasThere, Removes, Approvals.DistinctRows;
    forall row ensures row in rows <==> WasThere(u, l, row) {
      ListingHolds(rows, w.pending, row);
      ReadWasThere(w, u, l, ids, row);
    }
    forall a ensures a in u.removedAt && a in u.recorded && u.removedAt[a] == l.readAt ==>
                       Expired(u.recorded[a].row, l.clock)
    {
      ReadExpires(w, u, l, a);
    }
    hide TableOk, Listing;
  }

  lemma ReadKeeps(w: World, p: PassId, rows: seq<Pending>, now: int)
    requires Inv(w) && ReadMove(w, p, rows, now).Some?
    ensures Inv(ReadMove(w, p, rows, now).value)
  {
    var u := ReadMove(w, p, rows, now).value;
    var l := u.passes[p];
    ReadTable(w, p, rows, now);
    ReadLog(w, p, rows, now);
    assert ClaimsOk(u, l);
    SameResumes(w, u, p, l);
    hide Inv, TableOk, ReadOk, ClaimsOk, ResumesOk, Later, Live, Listing, WithoutExpired;
    PassMoves(w, u, p, l);
  }

  // ----- Moves of a pass -----

  // A pass that looks at nothing new: its stage changes, and perhaps what it was told.
  lemma StageKeeps(w: World, u: World, p: PassId, l: Log)
    requires Inv(w) && p in w.passes && u == Update(w, p, l).(resumes := u.resumes)
    requires l == w.passes[p].(told := l.told, done := l.done, stage := l.stage)
    requires (l.told == w.passes[p].told && l.looked == w.passes[p].looked) || w.passes[p].looked == 0
    requires ClaimsOk(u, l) && forall q, row :: ResumesOk(u, q, row)
    ensures Inv(u)
  {
    DeleteIsLater(w, u, "");
    LogsStay(w, u, w.passes[p]);
    assert ReadOk(u, l) by {
      assert ReadOk(u, w.passes[p]);
      assert forall row :: WasThere(u, l, row) <==> WasThere(u, w.passes[p], row);
    }
    hide Inv, TableOk, ReadOk, ClaimsOk, ResumesOk, Later;
    PassMoves(w, u, p, l);
  }

  lemma ToldKeeps(w: World, p: PassId, states: map<ApprovalId, ApprovalState>)
    requires Inv(w) && ToldMove(w, p, states).Some?
    ensures Inv(ToldMove(w, p, states).value)
  {
    var u := ToldMove(w, p, states).value;
    var l := u.passes[p];
    assert ClaimsOk(w, w.passes[p]);
    assert ClaimsOk(u, l);
    SameResumes(w, u, p, l);
    hide Inv, ClaimsOk, ResumesOk;
    StageKeeps(w, u, p, l);
  }

  lemma AnswerKeeps(w: World, p: PassId)
    requires Inv(w) && AnswerMove(w, p).Some?
    ensures Inv(AnswerMove(w, p).value)
  {
    var u := AnswerMove(w, p).value;
    var l := u.passes[p];
    assert ClaimsOk(w, w.passes[p]);
    assert ClaimsOk(u, l);
    SameResumes(w, u, p, l);
    hide Inv, ClaimsOk, ResumesOk;
    StageKeeps(w, u, p, l);
  }

  lemma RaiseKeeps(w: World, p: PassId)
    requires Inv(w) && RaiseMove(w, p).Some?
    ensures Inv(RaiseMove(w, p).value)
  {
    var u := RaiseMove(w, p).value;
    var l := u.passes[p];
    assert TableOk(w) && ClaimsOk(w, w.passes[p]);
    assert ClaimsOk(u, l);
    SameResumes(w, u, p, l);
    hide Inv, ClaimsOk, ResumesOk;
    StageKeeps(w, u, p, l);
  }

  // The session of the last row looked at is resumed.
  lemma NudgeResumes(w: World, p: PassId)
    requires Inv(w) && NudgeMove(w, p).Some?
    ensures forall q, row :: ResumesOk(NudgeMove(w, p).value, q, row)
  {
    var u, was := NudgeMove(w, p).value, w.passes[p];
    var live, k := LiveOf(was), was.done;
    assert ReadOk(w, was) && ClaimsOk(w, was);
    Approvals.LiveDistinct(was.snapshot, was.clock);
    assert multiset(u.resumes) == multiset(w.resumes) + multiset{Resume(p, live[k])};
    hide ReadOk, ClaimsOk, TableOk, Approvals.DistinctRows;
    forall q, row ensures ResumesOk(u, q, row) {
      assert ResumesOk(w, q, row);
      InPrefix(live, k, row);
    }
  }

  lemma NudgeKeeps(w: World, p: PassId)
    requires Inv(w) && NudgeMove(w, p).Some?
    ensures Inv(NudgeMove(w, p).value)
  {
    var u := NudgeMove(w, p).value;
    var l := u.passes[p];
    assert ClaimsOk(w, w.passes[p]);
    assert ClaimsOk(u, l);
    NudgeResumes(w, p);
    hide Inv, ClaimsOk, ResumesOk;
    StageKeeps(w, u, p, l);
  }

  lemma LookTable(w: World, p: PassId)
    requires TableOk(w) && LookMove(w, p).Some?
    ensures TableOk(LookMove(w, p).value) && Later(w, LookMove(w, p).value)
  {
    var l := w.passes[p];
    var a := if l.looked < |LiveOf(l)| then LiveOf(l)[l.looked].approval else "";
    hide TableOk, Later, LiveOf, Claims, LookedOn, Delete;
    DeletedFields(w, a);
    DeleteIsLater(w, LookMove(w, p).value, a);
  }

  lemma DeletedFields(w: World, a: ApprovalId)
    ensures var u := Delete(w, a); u == w.(pending := u.pending, removedAt := u.removedAt)
  {
  }

  lemma LookClaims(w: World, u: World, l: Log)
    requires TableOk(w) && ReadOk(w, l) && ClaimsOk(u, l) && l.stage.Working? && u.agents == w.agents &&
             u.time == w.time + 1
    requires u.removedAt == Claimed(w, l).removedAt && Later(w, u)
    ensures ClaimsOk(u, LookedOn(w, l))
  {
    var live, k := LiveOf(l), l.looked;
    if k < |live| {
      LiveIsKnown(w, l, live[k]);
      assert Claims(live[k], l.told) ==> live[k].approval in u.removedAt;
      assert LiveOf(LookedOn(w, l)) == live;
    } else {
      assert forall a | a in u.removedAt :: u.removedAt[a] <= w.time;
    }
    hide TableOk, ReadOk, Later, LiveOf, Claims, Act, Claimed;
  }

  lemma LookReads(w: World, u: World, l: Log)
    requires ReadOk(u, l)
    ensures ReadOk(u, LookedOn(w, l))
  {
    assert forall row :: WasThere(u, LookedOn(w, l), row) <==> WasThere(u, l, row);
    hide LiveOf, Act, WasThere, Approvals.DistinctRows;
  }

  // A row that a pass has in hand was recorded, and is in the table or was removed from it.
  lemma LiveIsKnown(w: World, l: Log, row: Pending)
    requires TableOk(w) && ReadOk(w, l) && row in LiveOf(l)
    ensures row.approval in w.recorded && (row.approval in w.pending || row.approval in w.removedAt)
  {
    Approvals.LiveRows(l.snapshot, l.clock);
    assert WasThere(w, l, row);
  }

  // A row that is looked at but not about to be resumed is not one to resume for.
  lemma LookResumes(w: World, u: World, p: PassId)
    requires Inv(w) && p in w.passes && w.passes[p].stage.Working?
    requires u.agents == w.agents && u.resumes == w.resumes && u.passes == w.passes[p := LookedOn(w, w.passes[p])]
    ensures forall q, row :: ResumesOk(u, q, row)
  {
    var was := w.passes[p];
    assert ClaimsOk(w, was);
    hide Inv, ResumesOk, Live;
    SameResumes(w, u, p, LookedOn(w, was));
  }

  lemma LookKeeps(w: World, p: PassId)
    requires Inv(w) && LookMove(w, p).Some?
    ensures Inv(LookMove(w, p).value)
  {
    var u, was := LookMove(w, p).value, w.passes[p];
    assert TableOk(w) && ReadOk(w, was) && ClaimsOk(w, was);
    DeletedFields(w, if was.looked < |LiveOf(was)| then LiveOf(was)[was.looked].approval else "");
    hide Inv, TableOk, ReadOk, ClaimsOk, ResumesOk, Later, Delete, LookedOn, LiveOf, Claims;
    LookTable(w, p);
    LogsStay(w, u, was);
    LookReads(w, u, was);
    LookClaims(w, u, was);
    LookResumes(w, u, p);
    PassMoves(w, u, p, LookedOn(w, was));
  }

  lemma InvAfter(w: World, m: Move, u: World)
    requires Inv(w) && After(w, m) == Some(u)
    ensures Inv(u)
  {
    hide Inv;
    match m
    case Arrive(row) => ArriveKeeps(w, row);
    case Read(p, rows, now) => ReadKeeps(w, p, rows, now);
    case Told(p, states) => ToldKeeps(w, p, states);
    case Look(p) => LookKeeps(w, p);
    case Nudge(p) => NudgeKeeps(w, p);
    case Answer(p) => AnswerKeeps(w, p);
    case Raise(p) => RaiseKeeps(w, p);
  }

  lemma {:induction false} InvAlways(worlds: seq<World>, moves: seq<Move>, n: nat)
    requires Interleaving(worlds, moves) && n < |worlds|
    ensures Inv(worlds[n])
  {
    hide Inv, After;
    if n == 0 {
      InvAtStart(worlds[0]);
    } else {
      InvAlways(worlds, moves, n - 1);
      InvAfter(worlds[n - 1], moves[n - 1], worlds[n]);
    }
  }

  // ----- What overlap does -----

  lemma WhatIsLive(w: World, l: Log, row: Pending)
    requires ReadOk(w, l)
    ensures row in LiveOf(l) <==> WasThere(w, l, row) && !Expired(row, l.clock)
  {
    Approvals.LiveRows(l.snapshot, l.clock);
  }

  // A pass that resumes for a row has claimed it: the row has left the table,
  // and before the pass ended.
  lemma ResumedIsClaimed(w: World, p: PassId, row: Pending)
    requires Inv(w) && ResumesBy(w, p, row) > 0
    ensures ResumesBy(w, p, row) == 1 && p in w.passes
    ensures var l := w.passes[p];
            && WasThere(w, l, row) && !Expired(row, l.clock) && Fires(w, l, row)
            && row.approval in w.removedAt && l.readAt < w.removedAt[row.approval]
            && (l.stage.Ended? ==> w.removedAt[row.approval] <= l.stage.at)
  {
    assert ResumesOk(w, p, row);
    var l := w.passes[p];
    assert ReadOk(w, l) && ClaimsOk(w, l);
    var live := LiveOf(l);
    var i :| 0 <= i < l.done && live[..l.done][i] == row;
    assert live[i] == row && row in live && Claims(live[i], l.told);
    WhatIsLive(w, l, row);
    hide Inv, ResumesOk;
  }

  // A pass that ran to its end resumed for a row once, if the row was in the
  // table when the pass read it, had not expired, was reported as approved, and
  // its room is configured; and otherwise not at all. Nothing that other passes
  // do in between makes a difference.
  lemma PassResumesExactly(worlds: seq<World>, moves: seq<Move>, n: nat, p: PassId, row: Pending)
    requires Interleaving(worlds, moves) && n < |worlds|
    requires p in worlds[n].passes && worlds[n].passes[p].stage.Ended? && worlds[n].passes[p].stage.finished
    ensures var w, l := worlds[n], worlds[n].passes[p];
            ResumesBy(w, p, row) ==
            if WasThere(w, l, row) && l.clock - row.createdAt <= 600 && Fires(w, l, row) then 1 else 0
  {
    InvAlways(worlds, moves, n);
    FinishedResumes(worlds[n], p, row);
  }

  lemma FinishedResumes(w: World, p: PassId, row: Pending)
    requires Inv(w) && p in w.passes && w.passes[p].stage.Ended? && w.passes[p].stage.finished
    ensures var l := w.passes[p];
            ResumesBy(w, p, row) == if WasThere(w, l, row) && !Expired(row, l.clock) && Fires(w, l, row) then 1 else 0
  {
    var l := w.passes[p];
    assert ReadOk(w, l) && ClaimsOk(w, l) && ResumesOk(w, p, row);
    assert LiveOf(l)[..l.done] == LiveOf(l);
    WhatIsLive(w, l, row);
    hide Inv, Decided;
  }

  // The row was recorded before both reads, and not deleted before the later one.
  predicate BothRead(w: World, l: Log, k: Log, row: Pending) {
    var firstRead := if l.readAt <= k.readAt then l.readAt else k.readAt;
    var laterRead := if l.readAt <= k.readAt then k.readAt else l.readAt;
    && row.approval in w.recorded && w.recorded[row.approval].row == row && w.recorded[row.approval].at < firstRead
    && row.approval in w.removedAt && laterRead < w.removedAt[row.approval]
  }

  // However two passes interleave, with each other and with any others: once
  // both have run to their end, they have resumed twice for a row if and only if
  // both were told that it is approved, before it had expired, its room is
  // configured, and the later of them read the table before the row was first
  // deleted from it. Deleting the row again stops nobody.
  lemma TwoPassesResumeTwice(worlds: seq<World>, moves: seq<Move>, n: nat, p: PassId, q: PassId, row: Pending)
    requires Interleaving(worlds, moves) && n < |worlds| && p != q
    requires p in worlds[n].passes && worlds[n].passes[p].stage.Ended? && worlds[n].passes[p].stage.finished
    requires q in worlds[n].passes && worlds[n].passes[q].stage.Ended? && worlds[n].passes[q].stage.finished
    ensures var w, l, k := worlds[n], worlds[n].passes[p], worlds[n].passes[q];
            ResumesBy(w, p, row) + ResumesBy(w, q, row) == 2 <==>
            && Decided(row, l.told, ApprovedApproval) && l.clock - row.createdAt <= 600
            && Decided(row, k.told, ApprovedApproval) && k.clock - row.createdAt <= 600
            && row.room in w.agents
            && BothRead(w, l, k, row)
  {
    InvAlways(worlds, moves, n);
    var w, l, k := worlds[n], worlds[n].passes[p], worlds[n].passes[q];
    FinishedResumes(w, p, row);
    FinishedResumes(w, q, row);
    if ResumesBy(w, p, row) > 0 && ResumesBy(w, q, row) > 0 {
      ResumedIsClaimed(w, p, row);
      ResumedIsClaimed(w, q, row);
    }
    hide Inv, Expired, Decided, Interleaving;
  }

  // One pass was over before the other read the table.
  predicate Apart(l: Log, k: Log) {
    (l.stage.Ended? && l.stage.at < k.readAt) || (k.stage.Ended? && k.stage.at < l.readAt)
  }

  // Passes that run one after the other, as reconcile_loop runs them, resume at
  // most once for an approval, whether they run to their end or raise.
  lemma PassesInTurnResumeOnce(worlds: seq<World>, moves: seq<Move>, n: nat, i: nat, j: nat)
    requires Interleaving(worlds, moves) && n < |worlds|
    requires var passes := worlds[n].passes;
             forall p, q | p in passes && q in passes && p != q :: Apart(passes[p], passes[q])
    requires i < j < |worlds[n].resumes|
    ensures worlds[n].resumes[i].row.approval != worlds[n].resumes[j].row.approval
  {
    InvAlways(worlds, moves, n);
    var w, x, y := worlds[n], worlds[n].resumes[i], worlds[n].resumes[j];
    assert x in multiset(w.resumes) && y in multiset(w.resumes);
    ResumedIsClaimed(w, x.pass, x.row);
    ResumedIsClaimed(w, y.pass, y.row);
    if x == y {
      TwiceInSeq(w.resumes, i, j);
    }
    hide Inv, Interleaving;
  }

  lemma TwiceInSeq<T>(xs: seq<T>, i: nat, j: nat)
    requires i < j < |xs| && xs[i] == xs[j]
    ensures multiset(xs)[xs[i]] >= 2
  {
    assert xs == xs[..j] + [xs[j]] + xs[j + 1..];
    assert xs[..j][i] in multiset(xs[..j]);
  }

  // ----- Such a run -----

  lemma GoOn(worlds: seq<World>, moves: seq<Move>, m: Move, u: World)
    requires Interleaving(worlds, moves) && After(worlds[|moves|], m) == Some(u)
    ensures Interleaving(worlds + [u], moves + [m])
  {
    hide After, Start;
    var longer, all := worlds + [u], moves + [m];
    forall i | 0 <= i < |all| ensures After(longer[i], all[i]) == Some(longer[i + 1]) {
      if i < |moves| {
        assert longer[i] == worlds[i] && longer[i + 1] == worlds[i + 1] && all[i] == moves[i];
      }
    }
  }

  const ROW: Pending := Pending("a", "$root", "s", "!room", "tool", 0)
  const APPROVED: map<ApprovalId, ApprovalState> := map["a" := ApprovedApproval]
  const AGENTS: map<RoomId, AgentName> := map["!room" := "agent"]

  function LogOf(readAt: nat, told: map<ApprovalId, ApprovalState>, looked: nat, done: nat, stage: Stage): Log {
    Log([ROW], readAt, 0, told, looked, done, stage)
  }

  lemma RowLives()
    ensures Live([ROW], 0) == [ROW] && Listing([ROW], map["a" := ROW])
    ensures WithoutExpired(map["a" := ROW], 0) == map["a" := ROW]
    ensures ExpiredKeys(map["a" := ROW], 0) == {}
    ensures Act(ROW, APPROVED, AGENTS) == [Resumed(ROW)] && Claims(ROW, APPROVED)
  {
    assert Live([ROW][1..], 0) == [];
  }

  // Both passes read the row, and are told that it is approved.
  lemma BothAreTold() returns (worlds: seq<World>, moves: seq<Move>)
    ensures Interleaving(worlds, moves) && |moves| == 5
    ensures var w := worlds[5];
            && w.agents == AGENTS && 0 in w.passes && w.passes[0] == LogOf(1, APPROVED, 0, 0, Working)
            && 1 in w.passes && w.passes[1] == LogOf(2, APPROVED, 0, 0, Working)
            && w.resumes == []
  {
    RowLives();
    var table := map["a" := ROW];
    var w0 := World(AGENTS, map[], map[], 0, map[], map[], []);
    var w1 := World(AGENTS, table, map[], 1, map["a" := Entry(ROW, 0)], map[], []);
    var w2 := Update(w1, 0, LogOf(1, map[], 0, 0, Asking));
    var w3 := Update(w2, 1, LogOf(2, map[], 0, 0, Asking));
    var w4 := Update(w3, 0, LogOf(1, APPROVED, 0, 0, Working));
    var w5 := Update(w4, 1, LogOf(2, APPROVED, 0, 0, Working));
    worlds, moves := [w0], [];
    GoOn(worlds, moves, Arrive(ROW), w1);
    worlds, moves := worlds + [w1], moves + [Arrive(ROW)];
    GoOn(worlds, moves, Read(0, [ROW], 0), w2);
    worlds, moves := worlds + [w2], moves + [Read(0, [ROW], 0)];
    GoOn(worlds, moves, Read(1, [ROW], 0), w3);
    worlds, moves := worlds + [w3], moves + [Read(1, [ROW], 0)];
    GoOn(worlds, moves, Told(0, APPROVED), w4);
    worlds, moves := worlds + [w4], moves + [Told(0, APPROVED)];
    GoOn(worlds, moves, Told(1, APPROVED), w5);
    worlds, moves := worlds + [w5], moves + [Told(1, APPROVED)];
  }

  // A pass looks at its one row, and resumes for it, whether the row is still there or not.
  lemma LookAndNudge(worlds: seq<World>, moves: seq<Move>, p: PassId, readAt: nat)
    returns (worlds': seq<World>, moves': seq<Move>)
    requires Interleaving(worlds, moves)
    requires var w := worlds[|moves|];
             w.agents == AGENTS && p in w.passes && w.passes[p] == LogOf(readAt, APPROVED, 0, 0, Working)
    ensures Interleaving(worlds', moves')
    ensures var w, u := worlds[|moves|], worlds'[|moves'|];
            && u.agents == AGENTS && u.resumes == w.resumes + [Resume(p, ROW)]
            && forall q | q in w.passes && q != p :: q in u.passes && u.passes[q] == w.passes[q]
  {
    RowLives();
    var w := worlds[|moves|];
    var claimed := Update(Delete(w, "a"), p, LogOf(readAt, APPROVED, 1, 0, Nudging));
    var resumed := Update(claimed, p, LogOf(readAt, APPROVED, 1, 1, Working)).(resumes := w.resumes + [Resume(p, ROW)]);
    GoOn(worlds, moves, Look(p), claimed);
    worlds', moves' := worlds + [claimed], moves + [Look(p)];
    GoOn(worlds', moves', Nudge(p), resumed);
    worlds', moves' := worlds' + [resumed], moves' + [Nudge(p)];
  }

  // A run of two passes that resumes twice for one approval.
  lemma OverlapWitness()
    ensures exists worlds: seq<World>, moves: seq<Move> | Interleaving(worlds, moves) ::
              worlds[|moves|].resumes == [Resume(0, ROW), Resume(1, ROW)]
  {
    var worlds, moves := BothAreTold();
    worlds, moves := LookAndNudge(worlds, moves, 0, 1);
    worlds, moves := LookAndNudge(worlds, moves, 1, 2);
    assert worlds[|moves|].resumes == [Resume(0, ROW), Resume(1, ROW)];
  }
}
