// The dispatcher's SQLite connection: four tables updated in place. Each
// method is proved against the statement it runs (module Store).
module Databases {
  import opened Prelude
  import opened Store

  class Database {
    var sessions: map<EventId, Session>
    var aliases: map<EventId, EventId>
    var since: Option<Token>
    var pending: map<ApprovalId, Pending>

    // The tables as one value.
    function State(): Tables
      reads this
    {
      Tables(sessions, aliases, since, pending)
    }

    constructor ()
      ensures State() == Tables(map[], map[], None, map[])
      ensures Valid(State()) && Disjoint(State())
    {
      sessions, aliases, since, pending := map[], map[], None, map[];
    }

    method GetSince() returns (token: Option<Token>)
      ensures token == since
    {
      token := since;
    }

    method SetSince(token: Token)
      modifies this
      ensures State() == old(State()).(since := Some(token))
    {
      since := Some(token);
    }

    // First the thread roots, then the aliases; never a dangling answer.
    method GetSessionByEvent(event: EventId) returns (found: Option<(EventId, Session)>)
      ensures found == Store.GetSessionByEvent(State(), event)
      ensures found.Some? ==> found.value.0 in sessions && found.value.1 == sessions[found.value.0]
    {
      if event in sessions {
        return Some((event, sessions[event]));
      }
      if event in aliases {
        var root := aliases[event];
        if root in sessions {
          return Some((root, sessions[root]));
        }
        return None;
      }
      return None;
    }

    method RegisterAlias(event: EventId, root: EventId) returns (error: Option<DbError>)
      modifies this
      ensures match Store.RegisterAlias(old(State()), event, root)
              case Ok(t) => error.None? && State() == t
              case Err(e) => error == Some(e) && State() == old(State())
      ensures old(Valid(State())) ==> Valid(State())
    {
      if event == "" {
        return None;
      }
      if event !in aliases {
        if root !in sessions {
          return Some(ForeignKeyViolation);
        }
        aliases := aliases[event := root];
      }
      return None;
    }

    method InsertSession(root: EventId, room: RoomId, agent: AgentName, id: SessionId, now: int)
      returns (error: Option<DbError>)
      modifies this
      ensures match Store.InsertSession(old(State()), root, room, agent, id, now)
              case Ok(t) => error.None? && State() == t
              case Err(e) => error == Some(e) && State() == old(State())
      ensures old(Valid(State())) ==> Valid(State())
    {
      if root in sessions {
        return Some(UniqueViolation);
      }
      sessions := sessions[root := Session(room, agent, id, now, now)];
      return None;
    }

    method TouchSession(root: EventId, now: int)
      modifies this
      ensures State() == Store.TouchSession(old(State()), root, now)
      ensures root in old(sessions) ==>
                var row := old(sessions)[root];
                sessions == old(sessions)[root := Session(row.room, row.agent, row.id, row.createdAt, now)]
      ensures root !in old(sessions) ==> sessions == old(sessions)
      ensures old(Valid(State())) ==> Valid(State())
    {
      if root in sessions {
        sessions := sessions[root := sessions[root].(lastUsedAt := now)];
      }
    }

    method InsertPendingApproval(row: Pending)
      modifies this
      ensures State() == InsertPending(old(State()), row)
      ensures old(Valid(State())) ==> Valid(State())
    {
      pending := pending[row.approval := row];
    }

    method DeletePendingApproval(approval: ApprovalId)
      modifies this
      ensures State() == DeletePending(old(State()), approval)
      ensures old(Valid(State())) ==> Valid(State())
    {
      pending := pending - {approval};
    }

    // SELECT * FROM pending_approvals, in no particular order.
    method GetPendingApprovals() returns (rows: seq<Pending>)
      requires Valid(State())
      ensures Listing(rows, pending)
    {
      rows := [];
      var left := pending.Keys;
      while left != {}
        invariant left <= pending.Keys
        invariant forall i | 0 <= i < |rows| ::
                    rows[i].approval in pending.Keys - left && pending[rows[i].approval] == rows[i]
        invariant forall a | a in pending.Keys - left :: pending[a] in rows
        invariant forall i, j | 0 <= i < j < |rows| :: rows[i].approval != rows[j].approval
        decreases left
      {
        var a :| a in left;
        rows := rows + [pending[a]];
        left := left - {a};
      }
    }

    // The three DELETE statements; each returns its row count.

    method DeleteAliasesOfStaleSessions(cutoff: int) returns (count: nat)
      modifies this
      ensures State() == DeleteStaleAliases(old(State()), cutoff)
      ensures sessions == old(sessions) && |old(aliases)| == |aliases| + count
    {
      var doomed := set e | e in aliases && Stale(State(), aliases[e], cutoff);
      Removed(aliases, doomed);
      aliases := aliases - doomed;
      count := |doomed|;
    }

    method DeleteSessionsBefore(cutoff: int) returns (error: Option<DbError>, count: nat)
      modifies this
      ensures match DeleteStaleSessions(old(State()), cutoff)
              case Ok(t) => error.None? && State() == t && |old(sessions)| == |sessions| + count
              case Err(e) => error == Some(e) && State() == old(State())
      ensures aliases == old(aliases)
    {
      if exists e | e in aliases :: Stale(State(), aliases[e], cutoff) {
        return Some(ForeignKeyViolation), 0;
      }
      var doomed := set r | r in sessions && Stale(State(), r, cutoff);
      Removed(sessions, doomed);
      sessions := sessions - doomed;
      return None, |doomed|;
    }

    method DeleteOrphanedAliases() returns (count: nat)
      modifies this
      ensures State() == SweepOrphans(old(State()))
      ensures sessions == old(sessions) && |old(aliases)| == |aliases| + count
    {
      var doomed := set e | e in aliases && aliases[e] !in sessions;
      Removed(aliases, doomed);
      aliases := aliases - doomed;
      count := |doomed|;
    }

    // Returns how many sessions and aliases went. From a valid state no delete
    // fails, and the orphan sweep finds nothing.
    method RunCleanup(now: int, retentionDays: int)
        returns (error: Option<DbError>, sessionsDeleted: nat, aliasesDeleted: nat)
      requires Valid(State())
      modifies this
      ensures error.None?
      ensures State() == Cleanup(old(State()), now - retentionDays * 86400) && Valid(State())
      ensures |old(sessions)| == |sessions| + sessionsDeleted
      ensures |old(aliases)| == |aliases| + aliasesDeleted
    {
      hide DeleteStaleAliases, DeleteStaleSessions, SweepOrphans, Valid;
      var cutoff := now - retentionDays * 86400;
      DeletesKeepForeignKey(State(), cutoff);
      aliasesDeleted := DeleteAliasesOfStaleSessions(cutoff);
      error, sessionsDeleted := DeleteSessionsBefore(cutoff);
      if error.Some? {
        return;
      }
      SweepIsIdle(State());
      var orphans := DeleteOrphanedAliases();
      aliasesDeleted := aliasesDeleted + orphans;
    }

    // What other tasks do to sessions and aliases; a statement that fails has no effect.
    method Perform(ops: seq<Op>)
      requires Valid(State())
      modifies this
      ensures State() == ApplyAll(old(State()), ops) && Valid(State())
      ensures pending == old(pending)
    {
      for n := 0 to |ops|
        invariant State() == ApplyAll(old(State()), ops[..n]) && Valid(State())
        invariant pending == old(pending)
      {
        assert ops[..n + 1][..n] == ops[..n];
        match ops[n] {
          case Insert(root, room, agent, id, now) => var _ := InsertSession(root, room, agent, id, now);
          case Alias(event, root) => var _ := RegisterAlias(event, root);
          case Touch(root, now) => TouchSession(root, now);
          case Clean(cutoff) =>
            CleanupTables(State(), cutoff);
            var _, _, _ := RunCleanup(cutoff, 0);
        }
      }
      assert ops[..|ops|] == ops;
    }
  }

  lemma Removed<K, V>(m: map<K, V>, gone: set<K>)
    requires gone <= m.Keys
    ensures |m| == |m - gone| + |gone|
  {
    assert (m - gone).Keys == m.Keys - gone;
    assert |m.Keys - gone| + |gone| == |m.Keys|;
  }
}
