// The SQLite tables as values, each statement as a function on them, and what
// event resolution and retention cleanup mean.
module Store {
  import opened Prelude

  type EventId = string
  type RoomId = string
  type AgentName = string
  type SessionId = string
  type ApprovalId = string
  // A sync token, as the position it stands for in the event stream.
  type Token = nat

  // A row of sessions; the thread root is the key.
  datatype Session = Session(room: RoomId, agent: AgentName, id: SessionId, createdAt: int, lastUsedAt: int)

  // A row of pending_approvals.
  datatype Pending = Pending(approval: ApprovalId, root: EventId, session: SessionId, room: RoomId,
                             tool: string, createdAt: int)

  datatype Tables = Tables(
    sessions: map<EventId, Session>,
    aliases: map<EventId, EventId>,
    since: Option<Token>,
    pending: map<ApprovalId, Pending>)

  datatype DbError = UniqueViolation | ForeignKeyViolation

  // The foreign key of event_aliases, and pending rows filed under their own id.
  predicate Valid(t: Tables) {
    && (forall e | e in t.aliases :: t.aliases[e] in t.sessions)
    && (forall a | a in t.pending :: t.pending[a].approval == a)
  }

  // A result of SELECT * FROM pending_approvals: every row of pending exactly once.
  predicate Listing(rows: seq<Pending>, pending: map<ApprovalId, Pending>) {
    && (forall i | 0 <= i < |rows| :: rows[i].approval in pending && pending[rows[i].approval] == rows[i])
    && (forall a | a in pending :: pending[a] in rows)
    && (forall i, j | 0 <= i < j < |rows| :: rows[i].approval != rows[j].approval)
  }

  // ----- Statements -----

  // get_session_by_event: the thread root and row an event belongs to.
  function GetSessionByEvent(t: Tables, event: EventId): Option<(EventId, Session)> {
    if event in t.sessions then Some((event, t.sessions[event]))
    else if event in t.aliases && t.aliases[event] in t.sessions then
      Some((t.aliases[event], t.sessions[t.aliases[event]]))
    else None
  }

  // INSERT OR IGNORE does not suppress a foreign-key error.
  function RegisterAlias(t: Tables, event: EventId, root: EventId): Result<Tables, DbError> {
    if event == "" || event in t.aliases then Ok(t)
    else if root !in t.sessions then Err(ForeignKeyViolation)
    else Ok(t.(aliases := t.aliases[event := root]))
  }

  function InsertSession(t: Tables, root: EventId, room: RoomId, agent: AgentName, id: SessionId, now: int)
    : Result<Tables, DbError>
  {
    if root in t.sessions then Err(UniqueViolation)
    else Ok(t.(sessions := t.sessions[root := Session(room, agent, id, now, now)]))
  }

  function TouchSession(t: Tables, root: EventId, now: int): Tables {
    if root in t.sessions then t.(sessions := t.sessions[root := t.sessions[root].(lastUsedAt := now)]) else t
  }

  function InsertPending(t: Tables, row: Pending): Tables {
    t.(pending := t.pending[row.approval := row])
  }

  function DeletePending(t: Tables, approval: ApprovalId): Tables {
    t.(pending := t.pending - {approval})
  }

  predicate Stale(t: Tables, root: EventId, cutoff: int) {
    root in t.sessions && t.sessions[root].lastUsedAt < cutoff
  }

  // DELETE FROM event_aliases WHERE thread_root_id IN (stale sessions)
  function DeleteStaleAliases(t: Tables, cutoff: int): Tables {
    t.(aliases := map e | e in t.aliases && !Stale(t, t.aliases[e], cutoff) :: t.aliases[e])
  }

  // DELETE FROM sessions WHERE last_used_at < cutoff
  function DeleteStaleSessions(t: Tables, cutoff: int): Result<Tables, DbError> {
    if exists e | e in t.aliases :: Stale(t, t.aliases[e], cutoff) then Err(ForeignKeyViolation)
    else Ok(t.(sessions := map r | r in t.sessions && !Stale(t, r, cutoff) :: t.sessions[r]))
  }

  // DELETE FROM event_aliases WHERE thread_root_id NOT IN (sessions)
  function SweepOrphans(t: Tables): Tables {
    t.(aliases := map e | e in t.aliases && t.aliases[e] in t.sessions :: t.aliases[e])
  }

  // run_cleanup: the three deletes in order; the tables are untouched if one fails.
  function Cleanup(t: Tables, cutoff: int): Tables {
    var unlinked := DeleteStaleAliases(t, cutoff);
    match DeleteStaleSessions(unlinked, cutoff)
    case Ok(pruned) => SweepOrphans(pruned)
    case Err(_) => t
  }

  // ----- Resolution -----

  // The abstract view of the two tables, every known event and its thread root:
  // the aliases of live threads, and over them each root for itself.
  function Threads(t: Tables): map<EventId, EventId> {
    (map e | e in t.aliases && t.aliases[e] in t.sessions :: t.aliases[e]) + (map r | r in t.sessions :: r)
  }

  // In a valid state the alias lookup cannot dangle.
  lemma LookupIsThreads(t: Tables, event: EventId)
    requires Valid(t)
    ensures GetSessionByEvent(t, event) ==
            if event in Threads(t) then Some((Threads(t)[event], t.sessions[Threads(t)[event]])) else None
    ensures event in Threads(t) <==> event in t.sessions || event in t.aliases
  {
  }

  lemma ThreadsAt(t: Tables, event: EventId)
    requires Valid(t)
    ensures event in Threads(t) <==> event in t.sessions || event in t.aliases
    ensures event in Threads(t) ==> Threads(t)[event] == if event in t.sessions then event else t.aliases[event]
  {
  }

  // Maps that agree at every event are equal.
  lemma SameMap(x: map<EventId, EventId>, y: map<EventId, EventId>)
    requires forall e :: e in x <==> e in y
    requires forall e | e in x :: x[e] == y[e]
    ensures x == y
  {
  }

  lemma InsertRefines(t: Tables, root: EventId, room: RoomId, agent: AgentName, id: SessionId, now: int)
    requires Valid(t)
    ensures match InsertSession(t, root, room, agent, id, now)
            case Err(_) => root in t.sessions
            case Ok(t') => Valid(t') && root !in t.sessions && Threads(t') == Threads(t)[root := root]
  {
    match InsertSession(t, root, room, agent, id, now)
    case Err(_) =>
    case Ok(t') =>
      hide Threads;
      var known := Threads(t)[root := root];
      forall e ensures (e in Threads(t') <==> e in known) && (e in known ==> Threads(t')[e] == known[e]) {
        ThreadsAt(t, e);
        ThreadsAt(t', e);
      }
      SameMap(Threads(t'), known);
  }

  // An alias is refused exactly when it is new, non-empty and its session is gone;
  // otherwise it is added unless the event is already known.
  lemma AliasRefines(t: Tables, event: EventId, root: EventId)
    requires Valid(t)
    ensures RegisterAlias(t, event, root).Err? <==> event != "" && event !in t.aliases && root !in t.sessions
    ensures match RegisterAlias(t, event, root)
            case Err(_) => true
            case Ok(t') =>
              && Valid(t')
              && Threads(t') == if event == "" || event in Threads(t) then Threads(t) else Threads(t)[event := root]
  {
    match RegisterAlias(t, event, root)
    case Err(_) =>
    case Ok(t') =>
      hide Threads;
      var known := if event == "" || event in Threads(t) then Threads(t) else Threads(t)[event := root];
      forall e ensures (e in Threads(t') <==> e in known) && (e in known ==> Threads(t')[e] == known[e]) {
        ThreadsAt(t, e);
        ThreadsAt(t', e);
      }
      SameMap(Threads(t'), known);
  }

  lemma TouchRefines(t: Tables, root: EventId, now: int)
    requires Valid(t)
    ensures Valid(TouchSession(t, root, now)) && Threads(TouchSession(t, root, now)) == Threads(t)
  {
  }

  // A touched session is last used now, and all else about it is as before.
  lemma TouchIsNow(t: Tables, root: EventId, now: int)
    ensures var u := TouchSession(t, root, now);
            && u == t.(sessions := u.sessions)
            && (forall r :: r in u.sessions <==> r in t.sessions)
            && (forall r | r in t.sessions && r != root :: u.sessions[r] == t.sessions[r])
            && (root in t.sessions ==>
                  var before, after := t.sessions[root], u.sessions[root];
                  && after.lastUsedAt == now
                  && after.room == before.room && after.agent == before.agent && after.id == before.id
                  && after.createdAt == before.createdAt)
  {
  }

  // ----- Cleanup -----

  // Deleting the sessions fails exactly when some alias still points at one of
  // them, which the first delete rules out.
  lemma DeletesKeepForeignKey(t: Tables, cutoff: int)
    requires Valid(t)
    ensures Valid(DeleteStaleAliases(t, cutoff))
    ensures DeleteStaleSessions(t, cutoff).Err? <==> DeleteStaleAliases(t, cutoff).aliases != t.aliases
    ensures DeleteStaleSessions(DeleteStaleAliases(t, cutoff), cutoff).Ok?
    ensures Valid(DeleteStaleSessions(DeleteStaleAliases(t, cutoff), cutoff).value)
  {
    var unlinked := DeleteStaleAliases(t, cutoff);
    if e :| e in t.aliases && Stale(t, t.aliases[e], cutoff) {
      assert e !in unlinked.aliases;
    } else {
      assert unlinked.aliases == t.aliases;
    }
  }

  // The orphan sweep has nothing to do in a valid state.
  lemma SweepIsIdle(t: Tables)
    requires Valid(t)
    ensures SweepOrphans(t) == t
  {
    assert SweepOrphans(t).aliases == t.aliases;
  }

  // What the three deletes leave of each table.
  lemma CleanupTables(t: Tables, cutoff: int)
    requires Valid(t)
    ensures Valid(Cleanup(t, cutoff))
    ensures Cleanup(t, cutoff).aliases == map e | e in t.aliases && !Stale(t, t.aliases[e], cutoff) :: t.aliases[e]
    ensures Cleanup(t, cutoff).sessions == map r | r in t.sessions && !Stale(t, r, cutoff) :: t.sessions[r]
    ensures Cleanup(t, cutoff).since == t.since && Cleanup(t, cutoff).pending == t.pending
  {
    DeletesKeepForeignKey(t, cutoff);
    SweepIsIdle(DeleteStaleSessions(DeleteStaleAliases(t, cutoff), cutoff).value);
  }

  // A stale thread root that is also an alias of a surviving thread: deleting
  // the root brings the alias to light.
  predicate Unmasked(t: Tables, event: EventId, cutoff: int) {
    Stale(t, event, cutoff) && event in t.aliases && !Stale(t, t.aliases[event], cutoff)
  }

  // What an event resolves to after cleanup.
  lemma CleanupLookup(t: Tables, cutoff: int, event: EventId)
    requires Valid(t)
    ensures GetSessionByEvent(Cleanup(t, cutoff), event) ==
            if Unmasked(t, event, cutoff) then Some((t.aliases[event], t.sessions[t.aliases[event]]))
            else if event in Threads(t) && !Stale(t, Threads(t)[event], cutoff) then GetSessionByEvent(t, event)
            else None
  {
    CleanupTables(t, cutoff);
  }

  lemma OnlyAliasesUnmask(t: Tables, event: EventId, cutoff: int)
    ensures Unmasked(t, event, cutoff) ==> event in t.aliases
  {
  }

  // Cleanup restricts the event map to the surviving sessions, exactly when it unmasks no alias.
  lemma CleanupRefines(t: Tables, cutoff: int)
    requires Valid(t)
    ensures Valid(Cleanup(t, cutoff))
    ensures var kept := map e | e in Threads(t) && !Stale(t, Threads(t)[e], cutoff) :: Threads(t)[e];
            Threads(Cleanup(t, cutoff)) == kept <==> forall e | e in t.aliases :: !Unmasked(t, e, cutoff)
  {
    CleanupTables(t, cutoff);
    var t' := Cleanup(t, cutoff);
    var kept := map e | e in Threads(t) && !Stale(t, Threads(t)[e], cutoff) :: Threads(t)[e];
    forall e
      ensures !Unmasked(t, e, cutoff) ==> (e in Threads(t') <==> e in kept)
      ensures !Unmasked(t, e, cutoff) && e in kept ==> Threads(t')[e] == kept[e]
      ensures Unmasked(t, e, cutoff) ==> e in Threads(t') && e !in kept
    {
      CleanupLookup(t, cutoff, e);
      LookupIsThreads(t, e);
      LookupIsThreads(t', e);
    }
    hide Threads, Cleanup, Stale, Valid;
    if forall e | e in t.aliases :: !Unmasked(t, e, cutoff) {
      forall e ensures !Unmasked(t, e, cutoff) {
        OnlyAliasesUnmask(t, e, cutoff);
      }
      assert Threads(t').Keys == kept.Keys;
      assert Threads(t') == kept;
    }
  }

  // Cleaning up to an earlier cutoff first makes no difference.
  lemma CleanupComposes(t: Tables, early: int, late: int)
    requires Valid(t) && early <= late
    ensures Cleanup(Cleanup(t, early), late) == Cleanup(t, late)
  {
    CleanupTables(t, early);
    CleanupTables(t, late);
    CleanupTables(Cleanup(t, early), late);
    var twice, once := Cleanup(Cleanup(t, early), late), Cleanup(t, late);
    assert twice.sessions == once.sessions;
    assert twice.aliases == once.aliases;
  }

  // ----- Resolution over whole runs -----

  datatype Op =
    | Insert(root: EventId, room: RoomId, agent: AgentName, id: SessionId, now: int)
    | Alias(event: EventId, to: EventId)
    | Touch(touched: EventId, at: int)
    | Clean(cutoff: int)

  // A failed statement leaves the tables as they were.
  function Apply(t: Tables, op: Op): Tables {
    match op
    case Insert(root, room, agent, id, now) =>
      (match InsertSession(t, root, room, agent, id, now) case Ok(t') => t' case Err(_) => t)
    case Alias(event, to) =>
      (match RegisterAlias(t, event, to) case Ok(t') => t' case Err(_) => t)
    case Touch(root, at) => TouchSession(t, root, at)
    case Clean(cutoff) => Cleanup(t, cutoff)
  }

  function ApplyAll(t: Tables, ops: seq<Op>): Tables {
    if ops == [] then t else Apply(ApplyAll(t, ops[..|ops| - 1]), ops[|ops| - 1])
  }

  // The event id an operation brings in.
  function Introduces(op: Op): Option<EventId> {
    match op
    case Insert(root, _, _, _, _) => Some(root)
    case Alias(event, _) => if event == "" then None else Some(event)
    case _ => None
  }

  // The homeserver never hands out an event id twice.
  predicate FreshIds(t: Tables, ops: seq<Op>) {
    && (forall i | 0 <= i < |ops| && Introduces(ops[i]).Some? :: Introduces(ops[i]).value !in Threads(t))
    && (forall i, j | 0 <= i < j < |ops| && Introduces(ops[i]).Some? :: Introduces(ops[i]) != Introduces(ops[j]))
  }

  // Same thread and same session, whatever the time of last use.
  predicate SameThread(x: (EventId, Session), y: (EventId, Session)) {
    x.0 == y.0 && x.1.room == y.1.room && x.1.agent == y.1.agent && x.1.id == y.1.id && x.1.createdAt == y.1.createdAt
  }

  lemma ApplyIsValid(t: Tables, op: Op)
    requires Valid(t)
    ensures Valid(Apply(t, op))
  {
    match op
    case Insert(root, room, agent, id, now) => InsertRefines(t, root, room, agent, id, now);
    case Alias(event, to) => AliasRefines(t, event, to);
    case Touch(root, at) => TouchRefines(t, root, at);
    case Clean(cutoff) => CleanupRefines(t, cutoff);
  }

  // One operation moves an event to another thread exactly when it inserts a
  // session under an id that is an alias, or deletes a root that masks one.
  lemma RetargetExactly(t: Tables, op: Op, event: EventId)
    requires Valid(t) && GetSessionByEvent(t, event).Some?
    ensures var before, after := GetSessionByEvent(t, event).value, GetSessionByEvent(Apply(t, op), event);
            (after.Some? && !SameThread(before, after.value)) <==>
            ((op.Insert? && op.root == event && event !in t.sessions) || (op.Clean? && Unmasked(t, event, op.cutoff)))
  {
    if op.Clean? {
      CleanupLookup(t, op.cutoff, event);
    }
  }

  // Only an operation that introduces the event can make it resolve.
  lemma OnlyIntroductionsResolve(t: Tables, op: Op, event: EventId)
    requires Valid(t) && GetSessionByEvent(t, event).None?
    ensures GetSessionByEvent(Apply(t, op), event).Some? ==> Introduces(op) == Some(event)
  {
    if op.Clean? {
      CleanupLookup(t, op.cutoff, event);
    }
  }

  // No event is both a thread root and an alias.
  predicate Disjoint(t: Tables) {
    t.sessions.Keys !! t.aliases.Keys
  }

  lemma {:induction false} RunIsValid(t: Tables, ops: seq<Op>)
    requires Valid(t)
    ensures Valid(ApplyAll(t, ops))
  {
    if ops != [] {
      var prior := ApplyAll(t, ops[..|ops| - 1]);
      RunIsValid(t, ops[..|ops| - 1]);
      ApplyIsValid(prior, ops[|ops| - 1]);
    }
  }

  // An event that resolves after some operations was known at the start or has been introduced.
  lemma {:induction false} ResolvesOnlyIfIntroduced(t: Tables, ops: seq<Op>, event: EventId)
    requires Valid(t) && GetSessionByEvent(ApplyAll(t, ops), event).Some?
    ensures event in Threads(t) || exists i | 0 <= i < |ops| :: Introduces(ops[i]) == Some(event)
  {
    if ops == [] {
      LookupIsThreads(t, event);
    } else {
      var init, op := ops[..|ops| - 1], ops[|ops| - 1];
      RunIsValid(t, init);
      if GetSessionByEvent(ApplyAll(t, init), event).Some? {
        ResolvesOnlyIfIntroduced(t, init, event);
        if i :| 0 <= i < |init| && Introduces(init[i]) == Some(event) {
          assert Introduces(ops[i]) == Some(event);
        }
      } else {
        OnlyIntroductionsResolve(ApplyAll(t, init), op, event);
      }
    }
  }

  // The last operation of a fresh run introduces an event that did not resolve before.
  lemma NotKnownYet(t: Tables, ops: seq<Op>)
    requires Valid(t) && FreshIds(t, ops) && ops != [] && Introduces(ops[|ops| - 1]).Some?
    ensures GetSessionByEvent(ApplyAll(t, ops[..|ops| - 1]), Introduces(ops[|ops| - 1]).value).None?
  {
    if GetSessionByEvent(ApplyAll(t, ops[..|ops| - 1]), Introduces(ops[|ops| - 1]).value).Some? {
      NotIntroducedAgain(t, ops, |ops| - 1, Introduces(ops[|ops| - 1]).value);
    }
  }

  // What has resolved once is not introduced later.
  lemma NotIntroducedAgain(t: Tables, ops: seq<Op>, m: nat, event: EventId)
    requires Valid(t) && FreshIds(t, ops) && m < |ops|
    requires GetSessionByEvent(ApplyAll(t, ops[..m]), event).Some?
    ensures Introduces(ops[|ops| - 1]) != Some(event)
  {
    ResolvesOnlyIfIntroduced(t, ops[..m], event);
    assert forall i | 0 <= i < m :: ops[..m][i] == ops[i];
  }

  lemma {:induction false} FreshRunIsDisjoint(t: Tables, ops: seq<Op>)
    requires Valid(t) && Disjoint(t) && FreshIds(t, ops)
    ensures Disjoint(ApplyAll(t, ops))
  {
    if ops != [] {
      var init, op := ops[..|ops| - 1], ops[|ops| - 1];
      var prior := ApplyAll(t, init);
      RunIsValid(t, init);
      FreshRunIsDisjoint(t, init);
      if Introduces(op).Some? {
        NotKnownYet(t, ops);
      }
      if op.Clean? {
        CleanupTables(prior, op.cutoff);
      }
    }
  }

  // Over any run with fresh ids, an event that has resolved never resolves to another session ...
  lemma {:induction false} ResolutionIsStable(t: Tables, ops: seq<Op>, m: nat, event: EventId)
    requires Valid(t) && Disjoint(t) && FreshIds(t, ops) && m <= |ops|
    requires GetSessionByEvent(ApplyAll(t, ops[..m]), event).Some?
    ensures var first, last :=
              GetSessionByEvent(ApplyAll(t, ops[..m]), event), GetSessionByEvent(ApplyAll(t, ops), event);
            last.Some? ==> SameThread(first.value, last.value)
    decreases |ops|
  {
    if m == |ops| {
      assert ops[..m] == ops;
    } else {
      var init, op := ops[..|ops| - 1], ops[|ops| - 1];
      assert init[..m] == ops[..m];
      NotIntroducedAgain(t, ops, m, event);
      RunIsValid(t, init);
      FreshRunIsDisjoint(t, init);
      ResolutionIsStable(t, init, m, event);
      var prior := ApplyAll(t, init);
      if GetSessionByEvent(prior, event).Some? {
        RetargetExactly(prior, op, event);
      } else {
        OnlyIntroductionsResolve(prior, op, event);
      }
    }
  }

  // ... and once its session is gone it never resolves again.
  lemma {:induction false} ResolutionNeverReturns(t: Tables, ops: seq<Op>, m: nat, k: nat, event: EventId)
    requires Valid(t) && FreshIds(t, ops) && m <= k <= |ops|
    requires GetSessionByEvent(ApplyAll(t, ops[..m]), event).Some?
    requires GetSessionByEvent(ApplyAll(t, ops[..k]), event).None?
    ensures GetSessionByEvent(ApplyAll(t, ops), event).None?
    decreases |ops|
  {
    if k == |ops| {
      assert ops[..k] == ops;
    } else {
      var init := ops[..|ops| - 1];
      assert init[..m] == ops[..m] && init[..k] == ops[..k];
      NotIntroducedAgain(t, ops, m, event);
      RunIsValid(t, init);
      ResolutionNeverReturns(t, init, m, k, event);
      OnlyIntroductionsResolve(ApplyAll(t, init), ops[|ops| - 1], event);
    }
  }

  lemma {:induction false} ApplyAllConcat(t: Tables, first: seq<Op>, more: seq<Op>)
    ensures ApplyAll(t, first + more) == ApplyAll(ApplyAll(t, first), more)
  {
    hide Apply;
    if more == [] {
      assert first + more == first;
    } else {
      var init, all := more[..|more| - 1], first + more;
      ApplyAllConcat(t, first, init);
      assert all[..|all| - 1] == first + init && all[|all| - 1] == more[|more| - 1];
    }
  }
}
