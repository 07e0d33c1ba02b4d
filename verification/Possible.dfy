// What may happen: the world outside is not held back more than it has to be, so
// that what is proved of all runs is about the runs that there are.
module Possible {
  import opened Prelude
  import opened Store
  import opened Dispatching
  import opened Locking
  import Turns
  import Requests
  import Correlation

  // The homeserver may give a post any id that nobody has had, or none.
  lemma PostsMayGetAnyId(s: State, tid: TaskId, event: EventId, now: int)
    requires tid in s.tasks && TaskOk(s, tid)
    requires var p := s.tasks[tid].phase;
             || p.Acking? || p.SpawnAcking? || p.Posting? || p.Warning? || p.Declining?
             || p.MirrorAcking? || p.Heading? || p.Noting? || (p.Enumerating? && p.items != [])
    ensures Next(s, Posted(tid, event, now)).Some? <==>
            event == "" || (event !in s.h.issued && event !in s.h.dispatched)
  {
    hide AliasThen, AliasFinish, SpawnAcked, Finish, InPhase, PostOf;
  }

  // A spawn that has waited for its turn gets any session id that is new, once ten
  // seconds have passed since the last one of its room.
  lemma SpawnsMayGetAnyId(s: State, tid: TaskId, wall: real, id: SessionId)
    requires tid in s.tasks && s.tasks[tid].phase.Waiting? && s.tasks[tid].origin == Spawned
    requires s.tasks[tid].room !in s.locks
    requires wall - (if s.tasks[tid].room in s.lastSpawn then s.lastSpawn[s.tasks[tid].room] else 0.0) >= 10.0
    ensures Next(s, Acquire(tid, wall, id)).Some? <==>
            && id !in s.transcripts
            && (forall r | r in s.db.sessions :: s.db.sessions[r].id != id)
            && forall t | t in s.tasks && s.tasks[t].phase.SpawnAcking? :: s.tasks[t].session != id
  {
    hide StampsOf;
  }

  // Any approval may come up at any time, of the running turn's own making or of
  // another's, and it is pending and later than all that came up before.
  lemma AnyoneMayAsk(s: State, a: ApprovalId, agent: AgentName)
    requires a !in s.approvals
    ensures Next(s, Raise(a, agent, false)).Some?
    ensures var u := Next(s, Raise(a, agent, false)).value;
            && a in u.approvals && u.approvals[a].agent == agent && u.approvals[a].state == PendingApproval
            && u.approvals[a].createdAt == s.clock < u.clock
  {
    hide Watcher, RunnerIn;
  }

  // The operator may settle any approval in any way.
  lemma AnythingMayBeSettled(s: State, a: ApprovalId, state: ApprovalState)
    requires a in s.approvals && state != PendingApproval
    ensures Next(s, Settle(a, state)).Some?
  {
  }

  // A turn that looks for approvals may find the newest, and no other; it finds
  // none if the registry fails.
  lemma TheNewestMayBeFound(s: State, tid: TaskId, a: ApprovalId)
    requires tid in s.tasks && s.tasks[tid].phase.Querying? && s.tasks[tid].room in s.agents
    requires Correlation.TimesApart(s.approvals)
    ensures var agent, start := s.agents[s.tasks[tid].room], s.tasks[tid].phase.start;
            Next(s, Query(tid, Some(a))).Some? <==>
            && s.registry && Correlation.WaitsFor(s, agent, start, a)
            && forall b | b != a && Correlation.WaitsFor(s, agent, start, b) ::
                 s.approvals[b].createdAt < s.approvals[a].createdAt
    ensures Next(s, Query(tid, None)).Some?
  {
    if Next(s, Query(tid, Some(a))).Some? {
      Correlation.QueryFindsNewest(s, tid, a);
    }
  }

  // With a registry, a pass may begin whenever none is on, with the table's rows in any order.
  lemma PassesMayBegin(s: State, rows: seq<Pending>, now: int)
    requires s.registry && s.pass.Resting?
    ensures Next(s, PassBegin(rows, now)).Some? <==>
            && (forall i | 0 <= i < |rows| ::
                  rows[i].approval in s.db.pending && s.db.pending[rows[i].approval] == rows[i])
            && (forall a | a in s.db.pending :: s.db.pending[a] in rows)
            && (forall i, j | 0 <= i < j < |rows| :: rows[i].approval != rows[j].approval)
  {
    hide Live, WithoutExpired;
  }

  // The registry may answer with any part of what is true.
  lemma TheRegistryMayAnswer(s: State, told: map<ApprovalId, ApprovalState>)
    requires s.pass.Fetching?
    ensures Next(s, PassFetched(told)).Some? <==>
            forall a | a in told :: a in s.approvals && s.approvals[a].state == told[a]
  {
  }

  // !sessions may list what the table says, and nothing else.
  lemma TheListMayBeSent(s: State, tid: TaskId, pick: Option<SessionId>, items: seq<Listed>, posts: nat, now: int)
    requires tid in s.tasks && s.tasks[tid].phase.Routing?
    requires var m := s.tasks[tid].phase.message; m.trusted && m.threadRoot.None? && m.command.SessionsCommand?
    ensures Next(s, Route(tid, pick, items, posts, now)).Some? <==>
            Requests.Newest(s.db, s.tasks[tid].phase.message.room, items)
  {
  }

  // !mirror may adopt any transcript that the room does not track.
  lemma AnyTranscriptMayBeAdopted(s: State, tid: TaskId, id: SessionId, items: seq<Listed>, posts: nat, now: int)
    requires tid in s.tasks && s.tasks[tid].phase.Routing?
    requires var m := s.tasks[tid].phase.message;
             m.trusted && m.threadRoot.None? && m.command.MirrorCommand? && m.room in s.agents
    ensures Next(s, Route(tid, Some(id), items, posts, now)).Some? <==>
            && id in s.transcripts
            && forall r | r in s.db.sessions && s.db.sessions[r].room == s.tasks[tid].phase.message.room ::
                 s.db.sessions[r].id != id
  {
    hide RowsOfRoom, AbortTask;
  }

  // A message of a configured room is dispatched, if it has not been before and is not our own.
  lemma MessagesMayCome(s: State, tid: TaskId, m: Message)
    requires tid != RECONCILER && tid !in s.tasks && m.room in s.agents
    ensures Next(s, Dispatch(tid, m)).Some? <==> m.id !in s.h.dispatched && !(m.trusted && m.id in s.h.issued)
  {
  }
}
