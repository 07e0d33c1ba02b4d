// A reply to anything the dispatcher posts about a session leads back to that
// session, for as long as it leads anywhere.
module Replies {
  import opened Prelude
  import opened Store
  import opened Dispatching
  import opened Framing
  import opened Locking
  import opened Bookkeeping
  import opened Sessions
  import Approvals

  // The session each thread root was inserted with, for all roots so far.
  type Opened = map<EventId, SessionId>

  function NowOpened(known: Opened, t: Tables): Opened {
    (map r | r in t.sessions :: t.sessions[r].id) + known
  }

  // The task works for a session that has its row, or had it.
  predicate Bound(task: Task) {
    match task.origin
    case Utility => task.phase.Mirroring? || task.phase.MirrorAcking?
    case Spawned => !task.phase.Waiting? && !task.phase.SpawnAcking? && !task.phase.Declining?
    case Replied => true
    case Approved(_) => true
  }

  // The rows a task has yet to list for !sessions.
  function ItemsOf(p: Phase): seq<Listed> {
    if p.Heading? || p.Enumerating? then p.items else []
  }

  predicate OpenedAs(known: Opened, root: EventId, session: SessionId) {
    root in known && known[root] == session
  }

  // The task speaks of sessions that have been opened.
  predicate Grounded(known: Opened, task: Task) {
    && (Bound(task) ==> OpenedAs(known, task.root, task.session))
    && forall x | x in ItemsOf(task.phase) :: OpenedAs(known, x.root, x.session)
  }

  // The posts that speak for a session, and are aliased to its thread.
  predicate Speaks(kind: PostKind) {
    kind.Progress? || kind.Trouble? || kind.Chunk? || kind.Adopted? || kind.ListItem? || kind.Refusal?
  }

  predicate PostOk(s: State, known: Opened, p: Post) {
    && p.event in s.h.issued
    && (Speaks(p.kind) ==> OpenedAs(known, p.root, p.session))
    && (Speaks(p.kind) && p.event != "" ==>
          && (p.event in s.db.aliases <==> p.root in s.db.sessions)
          && (p.event in s.db.aliases ==> s.db.aliases[p.event] == p.root))
  }

  ghost predicate ReplyInv(s: State, known: Opened) {
    && (forall r | r in s.db.sessions :: OpenedAs(known, r, s.db.sessions[r].id))
    && (forall t | t in s.tasks && BeforeInsert(s.tasks[t]) :: s.tasks[t].root !in known)
    && (forall t | t in s.tasks :: Grounded(known, s.tasks[t]))
    && (forall a | a in s.db.pending :: OpenedAs(known, s.db.pending[a].root, s.db.pending[a].session))
    && (forall i | 0 <= i < |Waiters(s.pass)| :: OpenedAs(known, Waiters(s.pass)[i].root, Waiters(s.pass)[i].session))
    && (forall i | 0 <= i < |s.h.posts| :: PostOk(s, known, s.h.posts[i]))
    && (forall e | e in s.db.aliases :: e in s.h.issued)
    && (forall r | r in known :: r in s.h.dispatched && s.h.dispatched[r].trusted)
    && (forall e | e in s.h.issued && e in s.h.dispatched && e != "" :: !s.h.dispatched[e].trusted)
  }

  // The rows a pass has in hand.
  function Waiters(pass: Pass): seq<Pending> {
    if pass.Resting? then [] else if pass.Denying? then [pass.row] + pass.todo else pass.todo
  }

  predicate RowIs(t: Tables, x: Listed) {
    x.root in t.sessions && t.sessions[x.root].id == x.session
  }

  // What task b lists, task a lists, or the table has.
  predicate ListsKept(t: Tables, a: Task, b: Task) {
    forall x | x in ItemsOf(b.phase) :: x in ItemsOf(a.phase) || RowIs(t, x)
  }

  // ----- Steps that say nothing -----

  // Aliases and posts are as before; the moved task keeps its session; rows
  // waiting for an approval may go.
  ghost predicate Steady(s: State, u: State, tid: TaskId) {
    && OthersStay(s, u, tid)
    && (tid in u.tasks ==>
          tid in s.tasks && u.tasks[tid].root == s.tasks[tid].root && u.tasks[tid].session == s.tasks[tid].session)
    && (tid in u.tasks && Bound(u.tasks[tid]) ==> Bound(s.tasks[tid]))
    && (tid in u.tasks ==> ListsKept(s.db, s.tasks[tid], u.tasks[tid]))
    && (tid in u.tasks && BeforeInsert(u.tasks[tid]) ==> BeforeInsert(s.tasks[tid]))
    && u.db.aliases == s.db.aliases && SameRows(s.db.sessions, u.db.sessions)
    && (forall a | a in u.db.pending :: a in s.db.pending && u.db.pending[a] == s.db.pending[a])
    && u.h.posts == s.h.posts && u.h.issued == s.h.issued && u.h.dispatched == s.h.dispatched
    && forall i | 0 <= i < |Waiters(u.pass)| ::
         Waiters(u.pass)[i] in Waiters(s.pass) ||
         (Waiters(u.pass)[i].approval in s.db.pending &&
           s.db.pending[Waiters(u.pass)[i].approval] == Waiters(u.pass)[i])
  }

  // The invariant in a state whose posts and aliases are those of one that has it.
  lemma Rebuild(s: State, u: State, tid: TaskId, known: Opened)
    requires ReplyInv(s, known) && OthersStay(s, u, tid)
    requires tid in u.tasks ==>
               && Grounded(known, u.tasks[tid])
               && (BeforeInsert(u.tasks[tid]) ==> u.tasks[tid].root !in known)
    requires u.db.sessions.Keys == s.db.sessions.Keys
    requires forall r | r in u.db.sessions :: OpenedAs(known, r, u.db.sessions[r].id)
    requires forall a | a in u.db.pending :: OpenedAs(known, u.db.pending[a].root, u.db.pending[a].session)
    requires forall i | 0 <= i < |Waiters(u.pass)| ::
               OpenedAs(known, Waiters(u.pass)[i].root, Waiters(u.pass)[i].session)
    requires u.db.aliases == s.db.aliases && u.h.posts == s.h.posts && u.h.issued == s.h.issued &&
             u.h.dispatched == s.h.dispatched
    ensures ReplyInv(u, known)
  {
    hide BeforeInsert, Grounded, OpenedAs;
    forall i | 0 <= i < |u.h.posts| ensures PostOk(u, known, u.h.posts[i]) {
      assert PostOk(s, known, s.h.posts[i]);
    }
  }

  lemma SteadyIsGrounded(s: State, u: State, tid: TaskId, known: Opened)
    requires ReplyInv(s, known) && Steady(s, u, tid) && tid in u.tasks
    ensures Grounded(known, u.tasks[tid])
  {
    assert Grounded(known, s.tasks[tid]);
    hide BeforeInsert, Bound, ItemsOf, SameRows;
  }

  lemma SteadyKeepsReplies(s: State, u: State, tid: TaskId, known: Opened)
    requires ReplyInv(s, known) && Steady(s, u, tid)
    ensures ReplyInv(u, known)
  {
    if tid in u.tasks {
      SteadyIsGrounded(s, u, tid, known);
    }
    hide BeforeInsert, Bound, Grounded, ListsKept, OpenedAs;
    forall i | 0 <= i < |Waiters(u.pass)| ensures OpenedAs(known, Waiters(u.pass)[i].root, Waiters(u.pass)[i].session) {
      if Waiters(u.pass)[i] in Waiters(s.pass) {
        var j :| 0 <= j < |Waiters(s.pass)| && Waiters(s.pass)[j] == Waiters(u.pass)[i];
      }
    }
    Rebuild(s, u, tid, known);
  }

  // Rows that were there already are known already.
  lemma NothingOpened(s: State, u: State, known: Opened)
    requires ReplyInv(s, known) && forall r | r in u.db.sessions :: r in s.db.sessions
    ensures NowOpened(known, u.db) == known
  {
  }

  lemma PostsStayOk(s: State, known: Opened, root: EventId, row: Session)
    requires ReplyInv(s, known) && root !in known
    ensures var u := s.(db := s.db.(sessions := s.db.sessions[root := row]));
            forall i | 0 <= i < |s.h.posts| :: PostOk(u, known[root := row.id], s.h.posts[i])
  {
    hide BeforeInsert, Bound, Speaks;
    var u := s.(db := s.db.(sessions := s.db.sessions[root := row]));
    forall i | 0 <= i < |s.h.posts| ensures PostOk(u, known[root := row.id], s.h.posts[i]) {
      assert PostOk(s, known, s.h.posts[i]);
    }
  }

  lemma StaysGrounded(known: Opened, root: EventId, id: SessionId, task: Task)
    requires Grounded(known, task) && root !in known
    ensures Grounded(known[root := id], task)
  {
    hide Bound, ItemsOf;
  }

  lemma StaysOpened(known: Opened, root: EventId, id: SessionId)
    requires root !in known
    ensures OpenedAs(known[root := id], root, id)
    ensures forall r, x | OpenedAs(known, r, x) :: OpenedAs(known[root := id], r, x)
  {
  }

  // Opening a thread hurts nothing, if no task is about to open it.
  lemma MoreOpened(s: State, known: Opened, root: EventId, row: Session)
    requires ReplyInv(s, known) && root !in known && root in s.h.dispatched && s.h.dispatched[root].trusted
    requires forall t | t in s.tasks && BeforeInsert(s.tasks[t]) :: s.tasks[t].root != root
    ensures ReplyInv(s.(db := s.db.(sessions := s.db.sessions[root := row])), known[root := row.id])
  {
    PostsStayOk(s, known, root, row);
    forall t | t in s.tasks ensures Grounded(known[root := row.id], s.tasks[t]) {
      StaysGrounded(known, root, row.id, s.tasks[t]);
    }
    StaysOpened(known, root, row.id);
    hide BeforeInsert, Grounded, PostOk, Waiters, OpenedAs;
  }

  lemma SameWaiters(s: State, u: State)
    requires Waiters(u.pass) == Waiters(s.pass) || Waiters(u.pass) == []
    ensures forall i | 0 <= i < |Waiters(u.pass)| :: Waiters(u.pass)[i] in Waiters(s.pass)
  {
  }

  lemma LeaveSteady(s: State, tid: TaskId)
    requires tid in s.tasks
    ensures Steady(s, Finish(s, tid), tid) && Steady(s, AbortTask(s, tid), tid)
  {
    SameWaiters(s, Finish(s, tid));
    SameWaiters(s, AbortTask(s, tid));
    hide Unlocked, Waiters, Bound, ListsKept, BeforeInsert;
  }

  // The step moves one task on and changes nothing that is said.
  lemma MoveSteady(s: State, u: State, tid: TaskId, b: Task)
    requires tid in s.tasks && u.tasks == s.tasks[tid := b] && b.root == s.tasks[tid].root &&
             b.session == s.tasks[tid].session
    requires (Bound(b) ==> Bound(s.tasks[tid])) && (BeforeInsert(b) ==> BeforeInsert(s.tasks[tid]))
    requires ListsKept(s.db, s.tasks[tid], b)
    requires u.db.aliases == s.db.aliases && SameRows(s.db.sessions, u.db.sessions) && u.db.pending == s.db.pending
    requires u.h.posts == s.h.posts && u.h.issued == s.h.issued && u.h.dispatched == s.h.dispatched && u.pass == s.pass
    ensures Steady(s, u, tid)
  {
    SameWaiters(s, u);
    hide Waiters, Bound, ListsKept, BeforeInsert, SameRows;
  }

  lemma InPhaseSteady(s: State, tid: TaskId, p: Phase)
    requires tid in s.tasks
    requires var b := s.tasks[tid].(phase := p);
             && (Bound(b) ==> Bound(s.tasks[tid])) && (BeforeInsert(b) ==> BeforeInsert(s.tasks[tid]))
             && ListsKept(s.db, s.tasks[tid], b)
    ensures Steady(s, InPhase(s, tid, p), tid)
  {
    SameRowsRefl(s.db.sessions);
    hide Steady, Bound, ListsKept, BeforeInsert, SameRows;
    MoveSteady(s, InPhase(s, tid, p), tid, s.tasks[tid].(phase := p));
  }

  // A message that neither finds a session nor opens one.
  predicate StaysUnbound(s: State, m: Message) {
    InsertsNothing(m) && !(m.trusted && m.threadRoot.Some? && GetSessionByEvent(s.db, m.threadRoot.value).Some?)
  }

  lemma RouteSteady(s: State, tid: TaskId, pick: Option<SessionId>, items: seq<Listed>, posts: nat, now: int)
    requires RouteStep(s, tid, pick, items, posts, now).Some? && StaysUnbound(s, s.tasks[tid].phase.message)
    requires s.tasks[tid].origin == Utility
    ensures Steady(s, RouteStep(s, tid, pick, items, posts, now).value, tid)
  {
    hide Steady, MirrorStep, Finish, InPhase, GetSessionByEvent;
    var m := s.tasks[tid].phase.message;
    LeaveSteady(s, tid);
    if m.trusted && m.threadRoot.None? {
      match m.command
      case SessionsCommand => InPhaseSteady(s, tid, if items == [] then Noting(1) else Heading(items));
      case CancelCommand => InPhaseSteady(s, tid, Cancelling);
      case OtherCommand => InPhaseSteady(s, tid, Noting(posts));
      case _ =>
    } else if m.trusted {
      InPhaseSteady(s, tid, Noting(1));
    }
  }

  lemma AcquireSteady(s: State, tid: TaskId, wall: real, id: SessionId)
    requires AcquireStep(s, tid, wall, id).Some? && !Notable(s, Acquire(tid, wall, id)) && TaskOk(s, tid)
    ensures Steady(s, AcquireStep(s, tid, wall, id).value, tid)
  {
    SameRowsRefl(s.db.sessions);
    hide Steady, FreshSession, LastSpawn, StampsOf, SameRows;
    var u, spawned := AcquireStep(s, tid, wall, id).value, s.tasks[tid].origin == Spawned;
    MoveSteady(s, u, tid, s.tasks[tid].(phase := if spawned then Declining else Launching(s.clock)));
  }

  lemma RegisteredSteady(s: State, tid: TaskId)
    requires RegisteredStep(s, tid).Some? && TaskOk(s, tid)
    ensures Steady(s, RegisteredStep(s, tid).value, tid)
  {
    SameRowsRefl(s.db.sessions);
    hide Steady, SameRows;
    var u, task := RegisteredStep(s, tid).value, s.tasks[tid];
    var next :=
      if task.phase.Registering? then Waiting
      else if task.phase.Mirroring? then MirrorAcking
      else Launching(s.clock);
    MoveSteady(s, u, tid, task.(phase := next));
  }

  lemma RunnerSteady(s: State, step: Step, s': State)
    requires Next(s, step) == Some(s') && (step.Launched? || step.Exited? || step.TimedOut? || step.Reaped?)
    requires step.tid in s.tasks && s.tasks[step.tid].origin != Utility
    ensures Steady(s, s', step.tid)
  {
    hide Steady, TouchSession, SameRows;
    SameRowsRefl(s.db.sessions);
    var tid := step.tid;
    match step
    case Launched(_, _) => MoveSteady(s, s', tid, s'.tasks[tid]);
    case Exited(_, _, now) =>
      TouchSameRows(s.db, s.tasks[tid].root, now);
      TouchKeepsRest(s.db, s.tasks[tid].root, now);
      MoveSteady(s, s', tid, s'.tasks[tid]);
    case TimedOut(_) => MoveSteady(s, s', tid, s'.tasks[tid]);
    case Reaped(_) => MoveSteady(s, s', tid, s'.tasks[tid]);
  }

  lemma TouchKeepsRest(t: Tables, root: EventId, now: int)
    ensures TouchSession(t, root, now).aliases == t.aliases && TouchSession(t, root, now).pending == t.pending
  {
  }

  lemma FailedSteady(s: State, tid: TaskId)
    requires FailedStep(s, tid).Some?
    ensures Steady(s, FailedStep(s, tid).value, tid)
  {
    SameRowsRefl(s.db.sessions);
    LeaveSteady(s, tid);
    hide Steady, AbortTask, SameRows;
    if s.tasks[tid].origin.Approved? {
      MoveSteady(s, FailedStep(s, tid).value, tid, s.tasks[tid].(phase := Warning));
    }
  }

  lemma CancelSteady(s: State, tid: TaskId, giveUp: bool)
    requires CancelStep(s, tid, giveUp).Some?
    ensures Steady(s, CancelStep(s, tid, giveUp).value, tid)
  {
    SameRowsRefl(s.db.sessions);
    hide Steady, SameRows;
    var u := CancelStep(s, tid, giveUp).value;
    assert s.tasks[tid := s.tasks[tid]] == s.tasks;
    MoveSteady(s, u, tid, u.tasks[tid]);
  }

  // ----- Steps that post -----

  // Under one event id, at most one alias more.
  predicate AliasedAtMost(before: map<EventId, EventId>, after: map<EventId, EventId>, event: EventId,
                          target: EventId) {
    after == before || (event != "" && after == before[event := target])
  }

  // What register_alias makes of the aliases.
  function Tried(t: Tables, event: EventId, root: EventId): map<EventId, EventId> {
    if event == "" || event in t.aliases || root !in t.sessions then t.aliases else t.aliases[event := root]
  }

  lemma AddPost(s: State, u: State, known: Opened, post: Post, target: EventId)
    requires ReplyInv(s, known) && FreshEvent(s, post.event)
    requires u == Logged(s, post).(db := s.db.(aliases := u.db.aliases))
    requires AliasedAtMost(s.db.aliases, u.db.aliases, post.event, target)
    requires Speaks(post.kind) ==>
               OpenedAs(known, post.root, post.session) && u.db.aliases == Tried(s.db, post.event, post.root)
    ensures ReplyInv(u, known)
  {
    hide BeforeInsert, Bound, OpenedAs;
    forall i | 0 <= i < |u.h.posts| ensures PostOk(u, known, u.h.posts[i]) {
      if i < |s.h.posts| {
        assert u.h.posts[i] == s.h.posts[i];
        assert PostOk(s, known, s.h.posts[i]);
      }
    }
  }

  // The task runs on after a post: it may alias the event, and goes on or leaves.
  ghost predicate RunsOn(v: State, u: State, tid: TaskId, event: EventId, target: EventId) {
    && tid in v.tasks && OthersStay(v, u, tid)
    && (tid in u.tasks ==>
          && u.tasks[tid] == v.tasks[tid].(phase := u.tasks[tid].phase)
          && (Bound(u.tasks[tid]) ==> Bound(v.tasks[tid])) && !BeforeInsert(u.tasks[tid])
          && forall x | x in ItemsOf(u.tasks[tid].phase) :: x in ItemsOf(v.tasks[tid].phase))
    && u.db == v.db.(aliases := u.db.aliases) && AliasedAtMost(v.db.aliases, u.db.aliases, event, target)
    && u.h == v.h && (Waiters(u.pass) == Waiters(v.pass) || Waiters(u.pass) == [])
  }

  lemma LeaveRunsOn(v: State, tid: TaskId, event: EventId, target: EventId)
    requires tid in v.tasks
    ensures RunsOn(v, Finish(v, tid), tid, event, target) && RunsOn(v, AbortTask(v, tid), tid, event, target)
  {
    hide Unlocked, BeforeInsert, Bound, ItemsOf;
  }

  lemma InPhaseRunsOn(v: State, tid: TaskId, p: Phase, event: EventId, target: EventId)
    requires tid in v.tasks
    requires var b := v.tasks[tid].(phase := p); (Bound(b) ==> Bound(v.tasks[tid])) && !BeforeInsert(b)
    requires forall x | x in ItemsOf(p) :: x in ItemsOf(v.tasks[tid].phase)
    ensures RunsOn(v, InPhase(v, tid, p), tid, event, target)
  {
    hide BeforeInsert, Bound, ItemsOf;
  }

  lemma RunsOnFrom(v: State, w: State, u: State, tid: TaskId, event: EventId, target: EventId)
    requires w == v.(db := v.db.(aliases := w.db.aliases)) && RunsOn(w, u, tid, "", "")
    requires AliasedAtMost(v.db.aliases, w.db.aliases, event, target)
    ensures RunsOn(v, u, tid, event, target)
  {
    hide BeforeInsert, Bound, ItemsOf, Waiters;
  }

  lemma AliasAtMost(t: Tables, event: EventId, root: EventId)
    requires RegisterAlias(t, event, root).Ok?
    ensures var t' := RegisterAlias(t, event, root).value;
            t' == t.(aliases := t'.aliases) && AliasedAtMost(t.aliases, t'.aliases, event, root)
  {
  }

  lemma AliasThenRunsOn(v: State, tid: TaskId, event: EventId, root: EventId, p: Phase)
    requires tid in v.tasks
    requires var b := v.tasks[tid].(phase := p); (Bound(b) ==> Bound(v.tasks[tid])) && !BeforeInsert(b)
    requires forall x | x in ItemsOf(p) :: x in ItemsOf(v.tasks[tid].phase)
    ensures RunsOn(v, AliasThen(v, tid, event, root, p), tid, event, root)
  {
    hide RunsOn, BeforeInsert, Bound, ItemsOf, Finish, AbortTask, InPhase, AliasedAtMost;
    match RegisterAlias(v.db, event, root)
    case Ok(t) =>
      AliasAtMost(v.db, event, root);
      InPhaseRunsOn(v.(db := t), tid, p, "", "");
      RunsOnFrom(v, v.(db := t), InPhase(v.(db := t), tid, p), tid, event, root);
    case Err(_) => LeaveRunsOn(v, tid, event, root);
  }

  lemma AliasFinishRunsOn(v: State, tid: TaskId, event: EventId, root: EventId)
    requires tid in v.tasks
    ensures RunsOn(v, AliasFinish(v, tid, event, root), tid, event, root)
  {
    hide RunsOn, Finish, AbortTask, AliasedAtMost;
    match RegisterAlias(v.db, event, root)
    case Ok(t) =>
      AliasAtMost(v.db, event, root);
      LeaveRunsOn(v.(db := t), tid, "", "");
      RunsOnFrom(v, v.(db := t), Finish(v.(db := t), tid), tid, event, root);
    case Err(_) => LeaveRunsOn(v, tid, event, root);
  }

  lemma PostedRunsOn(s: State, tid: TaskId, event: EventId, now: int)
    requires PostedStep(s, tid, event, now).Some? && !s.tasks[tid].phase.SpawnAcking?
    ensures var task := s.tasks[tid];
            var v := Logged(s, PostOf(task, event));
            RunsOn(v, PostedStep(s, tid, event, now).value, tid, event, PostOf(task, event).root)
  {
    hide RunsOn, AliasThen, AliasFinish, SpawnAcked, Finish, InPhase;
    var task := s.tasks[tid];
    var v, target := Logged(s, PostOf(task, event)), PostOf(task, event).root;
    match task.phase
    case Acking => AliasThenRunsOn(v, tid, event, task.root, Registering);
    case Warning => AliasFinishRunsOn(v, tid, event, task.root);
    case Posting(start, left) =>
      AliasThenRunsOn(v, tid, event, task.root, if left <= 1 then Querying(start) else Posting(start, left - 1));
    case MirrorAcking => AliasFinishRunsOn(v, tid, event, task.root);
    case Heading(items) => InPhaseRunsOn(v, tid, Enumerating(items), event, target);
    case Enumerating(items) =>
      if |items| <= 1 {
        AliasFinishRunsOn(v, tid, event, target);
      } else {
        AliasThenRunsOn(v, tid, event, items[0].root, Enumerating(items[1..]));
      }
    case Declining => LeaveRunsOn(v, tid, event, target);
    case Noting(left) =>
      LeaveRunsOn(v, tid, event, target);
      if left > 1 {
        InPhaseRunsOn(v, tid, Noting(left - 1), event, target);
      }
    case _ =>
  }

  lemma RunsOnKeepsReplies(s: State, u: State, tid: TaskId, known: Opened, post: Post, target: EventId)
    requires ReplyInv(s, known) && FreshEvent(s, post.event) && RunsOn(Logged(s, post), u, tid, post.event, target)
    requires Speaks(post.kind) ==>
               OpenedAs(known, post.root, post.session) && u.db.aliases == Tried(s.db, post.event, post.root)
    ensures ReplyInv(u, known)
  {
    var v := Logged(s, post);
    var w := v.(db := s.db.(aliases := u.db.aliases));
    AddPost(s, w, known, post, target);
    Unmoved(w, known);
    if tid in u.tasks {
      BoundIsOpened(s, tid, known);
      assert Grounded(known, u.tasks[tid]) by {
        hide BeforeInsert, Bound, ItemsOf, OpenedAs, ReplyInv;
      }
    }
    hide BeforeInsert, Bound, Grounded, ItemsOf, OpenedAs, PostOk, FreshEvent, Speaks, Tried, ReplyInv;
    Rebuild(w, u, tid, known);
  }

  lemma AliasesTried(v: State, tid: TaskId, event: EventId, root: EventId, p: Phase)
    requires tid in v.tasks
    ensures AliasThen(v, tid, event, root, p).db.aliases == Tried(v.db, event, root)
    ensures AliasFinish(v, tid, event, root).db.aliases == Tried(v.db, event, root)
  {
    TryIsRegister(v.db, event, root);
    match RegisterAlias(v.db, event, root) {
      case Ok(t) => MovesKeepDb(v.(db := t), tid, p);
      case Err(_) => MovesKeepDb(v, tid, p);
    }
    hide RegisterAlias, Tried, InPhase, Finish, AbortTask;
  }

  lemma MovesKeepDb(v: State, tid: TaskId, p: Phase)
    requires tid in v.tasks
    ensures InPhase(v, tid, p).db == v.db && Finish(v, tid).db == v.db && AbortTask(v, tid).db == v.db
  {
    hide Unlocked;
  }

  lemma TryIsRegister(t: Tables, event: EventId, root: EventId)
    ensures match RegisterAlias(t, event, root)
            case Ok(t') => t'.aliases == Tried(t, event, root)
            case Err(_) => t.aliases == Tried(t, event, root)
  {
  }

  // A post about a session is aliased to its thread, if the thread is still there.
  lemma PostedTries(s: State, tid: TaskId, event: EventId, now: int)
    requires PostedStep(s, tid, event, now).Some? && !s.tasks[tid].phase.SpawnAcking?
    ensures Speaks(KindOf(s.tasks[tid].phase)) ==>
              PostedStep(s, tid, event, now).value.db.aliases == Tried(s.db, event, PostOf(s.tasks[tid], event).root)
  {
    hide AliasThen, AliasFinish, SpawnAcked, Finish, InPhase, Tried, FreshEvent;
    var task := s.tasks[tid];
    var v := Logged(s, PostOf(task, event));
    match task.phase
    case Acking => AliasesTried(v, tid, event, task.root, Registering);
    case Warning => AliasesTried(v, tid, event, task.root, Linking);
    case Posting(start, left) =>
      AliasesTried(v, tid, event, task.root, if left <= 1 then Querying(start) else Posting(start, left - 1));
    case MirrorAcking => AliasesTried(v, tid, event, task.root, Linking);
    case Enumerating(items) => AliasesTried(v, tid, event, items[0].root, Enumerating(items[1..]));
    case _ =>
  }

  lemma PostedKeepsReplies(s: State, tid: TaskId, event: EventId, now: int, known: Opened)
    requires ReplyInv(s, known) && PostedStep(s, tid, event, now).Some? && !s.tasks[tid].phase.SpawnAcking?
    requires TaskOk(s, tid)
    ensures ReplyInv(PostedStep(s, tid, event, now).value, known)
  {
    PostedRunsOn(s, tid, event, now);
    PostedTries(s, tid, event, now);
    var task := s.tasks[tid];
    hide ReplyInv, RunsOn, AliasThen, AliasFinish, Finish, InPhase, SpawnAcked, Tried;
    assert Speaks(KindOf(task.phase)) ==> Bound(task) || (task.phase.Enumerating? && task.phase.items != []);
    BoundIsOpened(s, tid, known);
    assert task.phase.Enumerating? && task.phase.items != [] ==> task.phase.items[0] in ItemsOf(task.phase);
    hide PostedStep;
    var post := PostOf(task, event);
    RunsOnKeepsReplies(s, PostedStep(s, tid, event, now).value, tid, known, post, post.root);
  }

  lemma BoundIsOpened(s: State, tid: TaskId, known: Opened)
    requires ReplyInv(s, known) && tid in s.tasks
    ensures Grounded(known, s.tasks[tid])
    ensures BeforeInsert(s.tasks[tid]) ==> s.tasks[tid].root !in known
  {
  }

  // ----- Steps that open a thread -----

  // The state with the row, while the task that opened it steps aside.
  function Aside(s: State, tid: TaskId, root: EventId, row: Session): State {
    s.(tasks := s.tasks - {tid}, db := s.db.(sessions := s.db.sessions[root := row]))
  }

  lemma StepAside(s: State, tid: TaskId, known: Opened, root: EventId, row: Session)
    requires ReplyInv(s, known) && SessionInv(s) && tid in s.tasks && BeforeInsert(s.tasks[tid]) &&
             s.tasks[tid].root == root
    requires !InsertsNothing(s.h.dispatched[root])
    ensures ReplyInv(Aside(s, tid, root, row), known[root := row.id]) && root !in known && root !in s.db.sessions
  {
    var w := s.(tasks := s.tasks - {tid});
    assert ComingOk(s, tid);
    BoundIsOpened(s, tid, known);
    forall t | t in w.tasks && BeforeInsert(w.tasks[t]) ensures w.tasks[t].root != root {
      assert PairOk(s, t, tid);
    }
    assert ReplyInv(w, known) by {
      hide BeforeInsert, Bound, OpenedAs, SessionInv;
      Rebuild(s, w, tid, known);
    }
    hide ReplyInv, SessionInv, BeforeInsert;
    MoreOpened(w, known, root, row);
  }

  lemma NowOpenedIs(s: State, u: State, known: Opened, root: EventId, row: Session)
    requires ReplyInv(s, known) && root !in known && u.db.sessions == s.db.sessions[root := row]
    ensures NowOpened(known, u.db) == known[root := row.id]
  {
  }

  // The task is back, bound to the thread it opened.
  lemma Reopen(x: State, u: State, tid: TaskId, b: Task, known: Opened)
    requires ReplyInv(x, known) && tid !in x.tasks && u.tasks == x.tasks[tid := b] && !BeforeInsert(b)
    requires Grounded(known, b)
    requires u.db == x.db && u.pass == x.pass
    requires u.h.posts == x.h.posts && u.h.issued == x.h.issued && u.h.dispatched == x.h.dispatched
    ensures ReplyInv(u, known)
  {
    Unmoved(x, known);
    hide ReplyInv, BeforeInsert, Grounded, OpenedAs, Waiters;
    Rebuild(x, u, tid, known);
  }

  lemma MirroringIsGrounded(m: Message, id: SessionId, known: Opened)
    ensures Grounded(known[m.id := id], Task(m.room, m.id, id, Utility, Mirroring))
  {
  }

  lemma MirrorKeepsReplies(s: State, tid: TaskId, m: Message, id: SessionId, now: int, known: Opened)
    requires ReplyInv(s, known) && SessionInv(s) && tid in s.tasks && s.tasks[tid].phase == Routing(m) &&
             !InsertsNothing(m)
    requires MirrorStep(s, tid, m, Some(id), now).Some?
    ensures var u := MirrorStep(s, tid, m, Some(id), now).value; ReplyInv(u, NowOpened(known, u.db))
  {
    assert ComingOk(s, tid);
    var row, b := Session(m.room, s.agents[m.room], id, now, now), Task(m.room, m.id, id, Utility, Mirroring);
    StepAside(s, tid, known, m.id, row);
    var x := Aside(s, tid, m.id, row);
    var u := x.(tasks := s.tasks[tid := b]);
    hide SessionInv, ReplyInv, BeforeInsert, Grounded, InsertsNothing;
    assert MirrorStep(s, tid, m, Some(id), now) == Some(u) by {
      hide Unmirrored;
    }
    hide MirrorStep;
    NowOpenedIs(s, u, known, m.id, row);
    NotSpawned(b);
    assert x.tasks[tid := b] == s.tasks[tid := b];
    assert Grounded(known[m.id := id], b) by {
      MirroringIsGrounded(m, id, known);
    }
    Reopen(x, u, tid, b, known[m.id := id]);
  }

  lemma SpawnAckedKeepsReplies(s: State, tid: TaskId, event: EventId, now: int, known: Opened)
    requires ReplyInv(s, known) && SessionInv(s) && PostedStep(s, tid, event, now).Some? &&
             s.tasks[tid].phase.SpawnAcking?
    requires s.tasks[tid].origin == Spawned
    ensures var u := PostedStep(s, tid, event, now).value; ReplyInv(u, NowOpened(known, u.db))
  {
    var task := s.tasks[tid];
    assert ComingOk(s, tid);
    var post := PostOf(task, event);
    var row := Session(task.room, s.agents[task.room], task.session, now, now);
    StepAside(s, tid, known, task.root, row);
    var v := Logged(s, post).(db := s.db.(sessions := s.db.sessions[task.root := row]));
    var u := PostedStep(s, tid, event, now).value;
    hide ReplyInv, SessionInv, BeforeInsert, AliasThen;
    assert u == AliasThen(v, tid, event, task.root, SpawnRegistering);
    SpawnGoesOn(s, v, tid, event, task.root, row, known[task.root := row.id], post);
    NowOpenedIs(s, u, known, task.root, row);
  }

  lemma SpawnGoesOn(s: State, v: State, tid: TaskId, event: EventId, root: EventId, row: Session, known: Opened,
                    post: Post)
    requires tid in s.tasks && FreshEvent(s, event) && s.tasks[tid].origin == Spawned && s.tasks[tid].root == root
    requires post == Post(post.room, root, s.tasks[tid].session, Progress, event)
    requires ReplyInv(Aside(s, tid, root, row), known) && OpenedAs(known, root, s.tasks[tid].session)
    requires v == Logged(s, post).(db := s.db.(sessions := s.db.sessions[root := row]))
    ensures var u := AliasThen(v, tid, event, root, SpawnRegistering);
            u.db.sessions == v.db.sessions && ReplyInv(u, known)
  {
    var w, b := Aside(s, tid, root, row), s.tasks[tid].(phase := SpawnRegistering);
    var u := AliasThen(v, tid, event, root, SpawnRegistering);
    AckedIsBound(s.tasks[tid]);
    AliasGoesOn(v, tid, event, root);
    var x := Logged(w, post).(db := w.db.(aliases := u.db.aliases));
    assert FreshEvent(w, event);
    hide ReplyInv, AliasThen, BeforeInsert, Bound, FreshEvent, AliasedAtMost, OpenedAs;
    AddPost(w, x, known, post, root);
    assert x.tasks[tid := b] == u.tasks;
    Reopen(x, u, tid, b, known);
  }

  lemma AckedIsBound(task: Task)
    requires task.origin == Spawned
    ensures Bound(task.(phase := SpawnRegistering)) && !BeforeInsert(task.(phase := SpawnRegistering))
  {
  }

  // A session that is there takes the alias.
  lemma AliasGoesOn(v: State, tid: TaskId, event: EventId, root: EventId)
    requires tid in v.tasks && root in v.db.sessions
    ensures var u := AliasThen(v, tid, event, root, SpawnRegistering);
            && u.tasks == v.tasks[tid := v.tasks[tid].(phase := SpawnRegistering)]
            && u.db == v.db.(aliases := u.db.aliases) && AliasedAtMost(v.db.aliases, u.db.aliases, event, root)
            && u.db.aliases == Tried(v.db, event, root) && u.h == v.h && u.pass == v.pass
  {
    AliasAtMost(v.db, event, root);
    AliasesTried(v, tid, event, root, SpawnRegistering);
    assert RegisterAlias(v.db, event, root).Ok?;
    hide RegisterAlias, Tried;
  }

  // ----- The other exceptions -----

  lemma Unmoved(s: State, known: Opened)
    requires ReplyInv(s, known)
    ensures forall r | r in s.db.sessions :: OpenedAs(known, r, s.db.sessions[r].id)
    ensures forall a | a in s.db.pending :: OpenedAs(known, s.db.pending[a].root, s.db.pending[a].session)
    ensures forall i | 0 <= i < |Waiters(s.pass)| ::
              OpenedAs(known, Waiters(s.pass)[i].root, Waiters(s.pass)[i].session)
  {
  }

  // A task that moves on with a session that has been opened, or with none yet.
  lemma MoveKeepsReplies(s: State, u: State, tid: TaskId, b: Task, known: Opened)
    requires ReplyInv(s, known) && tid in s.tasks && u.tasks == s.tasks[tid := b] && u.db == s.db && u.pass == s.pass
    requires u.h.posts == s.h.posts && u.h.issued == s.h.issued && u.h.dispatched == s.h.dispatched
    requires Grounded(known, b) && (BeforeInsert(b) ==> b.root !in known)
    ensures ReplyInv(u, known)
  {
    Unmoved(s, known);
    hide ReplyInv, BeforeInsert, Grounded, OpenedAs, Waiters;
    Rebuild(s, u, tid, known);
  }

  lemma RouteKeepsReplies(s: State, tid: TaskId, pick: Option<SessionId>, items: seq<Listed>, posts: nat, now: int,
                          known: Opened)
    requires ReplyInv(s, known) && SessionInv(s) && RouteStep(s, tid, pick, items, posts, now).Some? && TaskOk(s, tid)
    ensures var u := RouteStep(s, tid, pick, items, posts, now).value; ReplyInv(u, NowOpened(known, u.db))
  {
    var m, u := s.tasks[tid].phase.message, RouteStep(s, tid, pick, items, posts, now).value;
    assert ComingOk(s, tid);
    hide SessionInv, MirrorStep, RowsOfRoom, Finish, Bound, Grounded;
    if StaysUnbound(s, m) {
      RouteSteady(s, tid, pick, items, posts, now);
      hide RouteStep, ReplyInv, Steady, NowOpened;
      SteadyOpensNothing(s, u, tid, known);
    } else if m.trusted && m.threadRoot.Some? {
      ReplyKeepsReplies(s, tid, m, GetSessionByEvent(s.db, m.threadRoot.value).value, known);
      hide ReplyInv;
    } else if m.command.NoCommand? {
      SpawnRouteKeepsReplies(s, tid, m, known);
      hide ReplyInv;
    } else if pick.Some? {
      hide ReplyInv;
      MirrorKeepsReplies(s, tid, m, pick.value, now, known);
    } else {
      NoMirrorKeepsReplies(s, tid, m, now, known);
      hide ReplyInv;
    }
  }

  lemma SteadyOpensNothing(s: State, u: State, tid: TaskId, known: Opened)
    requires ReplyInv(s, known) && Steady(s, u, tid)
    ensures ReplyInv(u, NowOpened(known, u.db))
  {
    SteadyKeepsReplies(s, u, tid, known);
    NothingOpened(s, u, known);
  }

  lemma NoMirrorKeepsReplies(s: State, tid: TaskId, m: Message, now: int, known: Opened)
    requires ReplyInv(s, known) && tid in s.tasks && MirrorStep(s, tid, m, None, now).Some? &&
             s.tasks[tid].origin == Utility
    ensures var u := MirrorStep(s, tid, m, None, now).value; ReplyInv(u, NowOpened(known, u.db))
  {
    InPhaseSteady(s, tid, Noting(1));
    hide ReplyInv, Steady, Unmirrored, InPhase, NowOpened;
    SteadyOpensNothing(s, InPhase(s, tid, Noting(1)), tid, known);
  }

  lemma ReplyKeepsReplies(s: State, tid: TaskId, m: Message, found: (EventId, Session), known: Opened)
    requires ReplyInv(s, known) && tid in s.tasks
    requires m.threadRoot.Some? && GetSessionByEvent(s.db, m.threadRoot.value) == Some(found)
    ensures var u := s.(tasks := s.tasks[tid := Task(m.room, found.0, found.1.id, Replied, Acking)]);
            ReplyInv(u, NowOpened(known, u.db))
  {
    var b := Task(m.room, found.0, found.1.id, Replied, Acking);
    var u := s.(tasks := s.tasks[tid := b]);
    NothingOpened(s, u, known);
    assert OpenedAs(known, found.0, found.1.id);
    hide ReplyInv, NowOpened;
    MoveKeepsReplies(s, u, tid, b, known);
  }

  lemma SpawnRouteKeepsReplies(s: State, tid: TaskId, m: Message, known: Opened)
    requires ReplyInv(s, known) && tid in s.tasks && s.tasks[tid].phase == Routing(m) && s.tasks[tid].root == m.id
    ensures var u := s.(tasks := s.tasks[tid := Task(m.room, m.id, "", Spawned, Waiting)]);
            ReplyInv(u, NowOpened(known, u.db))
  {
    var b := Task(m.room, m.id, "", Spawned, Waiting);
    var u := s.(tasks := s.tasks[tid := b]);
    NothingOpened(s, u, known);
    BoundIsOpened(s, tid, known);
    hide ReplyInv, NowOpened;
    MoveKeepsReplies(s, u, tid, b, known);
  }

  lemma AdmitKeepsReplies(s: State, tid: TaskId, wall: real, id: SessionId, known: Opened)
    requires ReplyInv(s, known) && AcquireStep(s, tid, wall, id).Some? && Notable(s, Acquire(tid, wall, id))
    ensures var u := AcquireStep(s, tid, wall, id).value; ReplyInv(u, NowOpened(known, u.db))
  {
    var u := AcquireStep(s, tid, wall, id).value;
    BoundIsOpened(s, tid, known);
    hide FreshSession, LastSpawn, StampsOf;
    assert u.db == s.db;
    NothingOpened(s, u, known);
    hide ReplyInv, NowOpened;
    MoveKeepsReplies(s, u, tid, s.tasks[tid].(session := id, phase := SpawnAcking), known);
  }

  lemma RecordKeepsReplies(s: State, tid: TaskId, tool: string, now: int, known: Opened)
    requires ReplyInv(s, known) && RecordStep(s, tid, tool, now).Some? && s.tasks[tid].origin != Utility
    ensures var u := RecordStep(s, tid, tool, now).value; ReplyInv(u, NowOpened(known, u.db))
  {
    var u, task := RecordStep(s, tid, tool, now).value, s.tasks[tid];
    BoundIsOpened(s, tid, known);
    Unmoved(s, known);
    if task.phase.found == None {
      LeaveSteady(s, tid);
      hide ReplyInv, Steady, NowOpened, Finish;
      SteadyOpensNothing(s, Finish(s, tid), tid, known);
    } else {
      NothingOpened(s, u, known);
      hide ReplyInv, OpenedAs, NowOpened;
      Rebuild(s, u, tid, known);
    }
  }

  lemma RestWaits(s: State)
    requires s.pass.Acting? && s.pass.todo != []
    ensures s.pass.todo[0] in Waiters(s.pass) && forall r | r in s.pass.todo[1..] :: r in Waiters(s.pass)
  {
    assert s.pass.todo == [s.pass.todo[0]] + s.pass.todo[1..];
  }

  lemma WaiterIsOpened(s: State, row: Pending, known: Opened)
    requires ReplyInv(s, known) && row in Waiters(s.pass)
    ensures OpenedAs(known, row.root, row.session)
  {
    var i :| 0 <= i < |Waiters(s.pass)| && Waiters(s.pass)[i] == row;
  }

  // A row that is passed over, dropped, or denied.
  lemma PassOverKeepsReplies(s: State, u: State, known: Opened)
    requires ReplyInv(s, known) && u == s.(db := s.db.(pending := u.db.pending), pass := u.pass)
    requires forall a | a in u.db.pending :: a in s.db.pending && u.db.pending[a] == s.db.pending[a]
    requires forall r | r in Waiters(u.pass) :: r in Waiters(s.pass)
    ensures ReplyInv(u, NowOpened(known, u.db))
  {
    NothingOpened(s, u, known);
    hide ReplyInv, NowOpened, Waiters;
    OuterKeepsReplies(s, u, known);
  }

  lemma ClaimIsGrounded(row: Pending, known: Opened)
    requires OpenedAs(known, row.root, row.session)
    ensures var b := Task(row.room, row.root, row.session, Approved(row.approval), Waiting);
            Grounded(known, b) && !BeforeInsert(b)
  {
  }

  lemma ClaimKeepsReplies(s: State, row: Pending, rest: seq<Pending>, states: map<ApprovalId, ApprovalState>,
                          known: Opened)
    requires ReplyInv(s, known) && OpenedAs(known, row.root, row.session)
    requires forall r | r in rest :: r in Waiters(s.pass)
    ensures var u := Claim(s, row, rest, states); ReplyInv(u, NowOpened(known, u.db))
  {
    var u := Claim(s, row, rest, states);
    NothingOpened(s, u, known);
    Unmoved(s, known);
    hide ReplyInv, NowOpened, OpenedAs;
    forall i | 0 <= i < |rest| ensures OpenedAs(known, rest[i].root, rest[i].session) {
      assert rest[i] in rest;
      WaiterIsOpened(s, rest[i], known);
    }
    ClaimIsGrounded(row, known);
    hide Grounded, BeforeInsert;
    Rebuild(s, u, RECONCILER, known);
  }

  lemma PassActsKeepReplies(s: State, known: Opened)
    requires ReplyInv(s, known) && PassActStep(s).Some?
    ensures var u := PassActStep(s).value; ReplyInv(u, NowOpened(known, u.db))
  {
    hide ReplyInv, NowOpened, Drop, Deny, Claim, Decided, OpenedAs, OneRoomEach;
    if s.pass.todo == [] {
      RestingKeepsReplies(s, known);
    } else {
      hide Waiters;
      var row, rest, states := s.pass.todo[0], s.pass.todo[1..], s.pass.states;
      RestWaits(s);
      WaiterIsOpened(s, row, known);
      UnclaimedKeepsReplies(s, row, rest, states, known);
      ClaimKeepsReplies(s, row, rest, states, known);
    }
  }

  lemma RestingKeepsReplies(s: State, known: Opened)
    requires ReplyInv(s, known)
    ensures ReplyInv(s.(pass := Resting), NowOpened(known, s.db))
  {
    hide ReplyInv, NowOpened;
    PassOverKeepsReplies(s, s.(pass := Resting), known);
  }

  lemma UnclaimedKeepsReplies(s: State, row: Pending, rest: seq<Pending>, states: map<ApprovalId, ApprovalState>,
                              known: Opened)
    requires ReplyInv(s, known) && row in Waiters(s.pass) && forall r | r in rest :: r in Waiters(s.pass)
    ensures ReplyInv(Drop(s, row, rest, states), NowOpened(known, Drop(s, row, rest, states).db))
    ensures ReplyInv(Deny(s, row, rest, states), NowOpened(known, Deny(s, row, rest, states).db))
    ensures ReplyInv(s.(pass := Acting(rest, states)), NowOpened(known, s.db))
  {
    hide ReplyInv, NowOpened;
    PassOverKeepsReplies(s, Drop(s, row, rest, states), known);
    PassOverKeepsReplies(s, Deny(s, row, rest, states), known);
    PassOverKeepsReplies(s, s.(pass := Acting(rest, states)), known);
  }

  // No task moves, and nothing is said.
  lemma OuterKeepsReplies(s: State, u: State, known: Opened)
    requires ReplyInv(s, known) && u.tasks == s.tasks && u.db.sessions == s.db.sessions && u.db.aliases == s.db.aliases
    requires u.h.posts == s.h.posts && u.h.issued == s.h.issued && u.h.dispatched == s.h.dispatched
    requires forall a | a in u.db.pending :: a in s.db.pending && u.db.pending[a] == s.db.pending[a]
    requires forall i | 0 <= i < |Waiters(u.pass)| ::
               Waiters(u.pass)[i] in Waiters(s.pass) ||
               (Waiters(u.pass)[i].approval in s.db.pending &&
                 s.db.pending[Waiters(u.pass)[i].approval] == Waiters(u.pass)[i])
    ensures ReplyInv(u, known)
  {
    assert Steady(s, u, RECONCILER) by {
      hide Waiters, Bound, ItemsOf, BeforeInsert;
      assert RECONCILER in u.tasks ==> u.tasks[RECONCILER] == s.tasks[RECONCILER];
    }
    hide ReplyInv, Steady;
    SteadyKeepsReplies(s, u, RECONCILER, known);
  }

  lemma PassBeginKeepsReplies(s: State, rows: seq<Pending>, now: int, known: Opened)
    requires ReplyInv(s, known) && PassBeginStep(s, rows, now).Some?
    ensures var u := PassBeginStep(s, rows, now).value; ReplyInv(u, NowOpened(known, u.db))
  {
    var u := PassBeginStep(s, rows, now).value;
    NothingOpened(s, u, known);
    Approvals.LiveRows(rows, now);
    forall i | 0 <= i < |Live(rows, now)|
      ensures Live(rows, now)[i].approval in s.db.pending &&
              s.db.pending[Live(rows, now)[i].approval] == Live(rows, now)[i]
    {
      assert Live(rows, now)[i] in Live(rows, now);
    }
    hide ReplyInv, NowOpened, Live, Listing;
    OuterKeepsReplies(s, u, known);
  }

  lemma DenyPostedKeepsReplies(s: State, event: EventId, known: Opened)
    requires ReplyInv(s, known) && DenyPostedStep(s, event).Some?
    ensures var u := DenyPostedStep(s, event).value; ReplyInv(u, NowOpened(known, u.db))
  {
    var u, post := DenyPostedStep(s, event).value, RefusalOf(s.pass.row, event);
    DenyPostedSays(s, event);
    DenyPostedMovesNothing(s, event);
    hide DenyPostedStep;
    NothingOpened(s, u, known);
    var w := Logged(s, post).(db := s.db.(aliases := u.db.aliases));
    Unmoved(s, known);
    assert Waiters(s.pass)[0] == s.pass.row;
    DeniedWaits(s, u);
    AddPost(s, w, known, post, s.pass.row.root);
    hide ReplyInv, NowOpened, OpenedAs, FreshEvent, AliasedAtMost, Tried, Waiters;
    OuterKeepsReplies(w, u, known);
  }

  lemma DeniedWaits(s: State, u: State)
    requires s.pass.Denying? && (u.pass == Resting || u.pass == Acting(s.pass.todo, s.pass.states))
    ensures forall r | r in Waiters(u.pass) :: r in Waiters(s.pass)
  {
  }

  lemma DenyPostedSays(s: State, event: EventId)
    requires DenyPostedStep(s, event).Some?
    ensures var u := DenyPostedStep(s, event).value;
            && FreshEvent(s, event) && AliasedAtMost(s.db.aliases, u.db.aliases, event, s.pass.row.root)
            && u.h == Logged(s, RefusalOf(s.pass.row, event)).h
            && u.db.aliases == Tried(s.db, event, s.pass.row.root)
  {
    hide FreshEvent, Logged;
    LoggedMovesNothing(s, RefusalOf(s.pass.row, event));
    TryIsRegister(s.db, event, s.pass.row.root);
  }

  // Rows and aliases may go.
  lemma CleanKeepsReplies(s: State, cutoff: int, known: Opened)
    requires ReplyInv(s, known)
    ensures var u := s.(db := Cleanup(s.db, cutoff)); ReplyInv(u, NowOpened(known, u.db))
  {
    var u := s.(db := Cleanup(s.db, cutoff));
    CleanupOnlyRemoves(s.db, cutoff);
    CleanupOnlyRemovesAliases(s.db, cutoff);
    hide Cleanup, OpenedAs, BeforeInsert, Grounded, Waiters;
    NothingOpened(s, u, known);
    forall i | 0 <= i < |u.h.posts| ensures PostOk(u, known, u.h.posts[i]) {
      CleanPostOk(s, u, known, s.h.posts[i]);
    }
    hide PostOk, NowOpened;
  }

  // Rows and aliases go together.
  lemma CleanPostOk(s: State, u: State, known: Opened, p: Post)
    requires PostOk(s, known, p) && u.h == s.h
    requires forall r | r in u.db.sessions :: r in s.db.sessions
    requires forall e | e in u.db.aliases :: e in s.db.aliases && u.db.aliases[e] == s.db.aliases[e]
    requires forall e | e in s.db.aliases && s.db.aliases[e] in s.db.sessions ::
               e in u.db.aliases <==> s.db.aliases[e] in u.db.sessions
    ensures PostOk(u, known, p)
  {
  }

  lemma CleanupOnlyRemovesAliases(t: Tables, cutoff: int)
    ensures Cleanup(t, cutoff).pending == t.pending
    ensures var left := Cleanup(t, cutoff).aliases; forall e | e in left :: e in t.aliases && left[e] == t.aliases[e]
    ensures forall e | e in t.aliases && t.aliases[e] in t.sessions ::
              e in Cleanup(t, cutoff).aliases <==> t.aliases[e] in Cleanup(t, cutoff).sessions
  {
  }

  lemma CrashKeepsReplies(s: State, agents: map<RoomId, AgentName>, registry: bool, known: Opened)
    requires ReplyInv(s, known) && CrashStep(s, agents, registry).Some?
    ensures var u := CrashStep(s, agents, registry).value; ReplyInv(u, NowOpened(known, u.db))
  {
    var u := CrashStep(s, agents, registry).value;
    NothingOpened(s, u, known);
    hide OpenedAs;
    forall i | 0 <= i < |u.h.posts| ensures PostOk(u, known, u.h.posts[i]) {
      assert PostOk(s, known, s.h.posts[i]);
    }
  }

  lemma DispatchKeepsReplies(s: State, tid: TaskId, m: Message, known: Opened)
    requires ReplyInv(s, known) && DispatchStep(s, tid, m).Some?
    ensures var u := DispatchStep(s, tid, m).value; ReplyInv(u, NowOpened(known, u.db))
  {
    var u := DispatchStep(s, tid, m).value;
    NothingOpened(s, u, known);
    hide OpenedAs;
    forall i | 0 <= i < |u.h.posts| ensures PostOk(u, known, u.h.posts[i]) {
      assert PostOk(s, known, s.h.posts[i]);
    }
  }

  lemma TaskStepKeepsReplies(s: State, step: Step, s': State, known: Opened)
    requires LockInv(s) && SessionInv(s) && ReplyInv(s, known) && Next(s, step) == Some(s')
    requires TaskOf(step).Some? && !step.Dispatch? && step.tid in s.tasks
    ensures ReplyInv(s', NowOpened(known, s'.db))
  {
    var tid := step.tid;
    InvOk(s, tid, s.tasks[tid].room);
    hide LockInv, SessionInv, ReplyInv, NowOpened, RouteStep, PostedStep, RegisteredStep, AcquireStep, LaunchedStep,
         ExitedStep, TimedOutStep, ReapedStep, FailedStep, QueryStep, RecordStep, LinkedStep, CancelStep, AbortStep;
    if step.Route? {
      RouteKeepsReplies(s, tid, step.pick, step.items, step.posts, step.now, known);
    } else if step.Posted? {
      PostedsKeepReplies(s, tid, step.event, step.now, known);
    } else if step.Record? {
      RecordKeepsReplies(s, tid, step.tool, step.now, known);
    } else if step.Acquire? && Notable(s, step) {
      AdmitKeepsReplies(s, tid, step.wall, step.session, known);
    } else {
      OnlyStepIsSteady(s, step, s');
      hide Next, Steady;
      SteadyOpensNothing(s, s', tid, known);
    }
  }

  lemma PostedsKeepReplies(s: State, tid: TaskId, event: EventId, now: int, known: Opened)
    requires SessionInv(s) && ReplyInv(s, known) && PostedStep(s, tid, event, now).Some? && TaskOk(s, tid)
    ensures var u := PostedStep(s, tid, event, now).value; ReplyInv(u, NowOpened(known, u.db))
  {
    if s.tasks[tid].phase.SpawnAcking? {
      hide ReplyInv, SessionInv, NowOpened, PostedStep;
      SpawnAckedKeepsReplies(s, tid, event, now, known);
    } else {
      PostedKeepsReplies(s, tid, event, now, known);
      PostedSettles(s, tid, event, now);
      NothingOpened(s, PostedStep(s, tid, event, now).value, known);
    }
  }

  lemma RunnersAreBound(s: State, step: Step, s': State)
    requires Next(s, step) == Some(s') && (step.Launched? || step.Exited? || step.TimedOut? || step.Reaped?)
    requires step.tid in s.tasks && TaskOk(s, step.tid)
    ensures s.tasks[step.tid].origin != Utility
  {
  }

  lemma OnlyStepIsSteady(s: State, step: Step, s': State)
    requires Next(s, step) == Some(s') && TaskOf(step).Some? && step.tid in s.tasks && TaskOk(s, step.tid)
    requires !step.Dispatch? && !step.Route? && !step.Posted? && !step.Record? && (step.Acquire? ==> !Notable(s, step))
    ensures Steady(s, s', step.tid)
  {
    hide Steady, AcquireStep, InPhase, Finish, AbortTask, Notable;
    match step
    case Registered(tid) => RegisteredSteady(s, tid);
    case Acquire(tid, wall, id) => AcquireSteady(s, tid, wall, id);
    case Failed(tid) => FailedSteady(s, tid);
    case Query(tid, found) => InPhaseSteady(s, tid, Queried(s.tasks[tid].phase.start, found));
    case Linked(tid) => LeaveSteady(s, tid);
    case CancelPoll(tid, giveUp) => CancelSteady(s, tid, giveUp);
    case Abort(tid) => LeaveSteady(s, tid);
    case _ =>
      RunnersAreBound(s, step, s');
      RunnerSteady(s, step, s');
  }

  // A step of the reconcile or cleanup loop, a restart, or a move of the world outside.
  lemma LoopStepKeepsReplies(s: State, step: Step, s': State, known: Opened)
    requires ReplyInv(s, known) && Next(s, step) == Some(s') && TaskOf(step).None?
    ensures ReplyInv(s', NowOpened(known, s'.db))
  {
    hide ReplyInv, NowOpened, Cleanup, PassActStep, PassBeginStep, DenyPostedStep, CrashStep, Watcher, RunnerIn,
         StatesAnswer;
    match step
    case PassBegin(rows, now) => PassBeginKeepsReplies(s, rows, now, known);
    case PassFetched(states) => PassOverKeepsReplies(s, s', known);
    case PassAct => PassActsKeepReplies(s, known);
    case DenyPosted(event) => DenyPostedKeepsReplies(s, event, known);
    case PassAbort => PassOverKeepsReplies(s, s', known);
    case Clean(cutoff) => CleanKeepsReplies(s, cutoff, known);
    case Crash(agents, registry) => CrashKeepsReplies(s, agents, registry, known);
    case Raise(a, agent, own) => WorldKeepsReplies(s, s', known);
    case Settle(a, state) => WorldKeepsReplies(s, s', known);
    case Transcript(id) => WorldKeepsReplies(s, s', known);
  }

  lemma WorldKeepsReplies(s: State, u: State, known: Opened)
    requires ReplyInv(s, known) && u.tasks == s.tasks && u.db == s.db && u.h == s.h && u.pass == s.pass
    ensures ReplyInv(u, NowOpened(known, u.db))
  {
    NothingOpened(s, u, known);
    hide ReplyInv, NowOpened, Waiters;
    OuterKeepsReplies(s, u, known);
  }

  lemma ReplyInvStep(s: State, step: Step, s': State, known: Opened)
    requires LockInv(s) && SessionInv(s) && ReplyInv(s, known) && Next(s, step) == Some(s')
    ensures ReplyInv(s', NowOpened(known, s'.db))
  {
    hide LockInv, SessionInv, ReplyInv, NowOpened;
    if TaskOf(step).None? {
      hide Next;
      LoopStepKeepsReplies(s, step, s', known);
    } else if step.Dispatch? {
      DispatchKeepsReplies(s, step.tid, step.message, known);
    } else {
      assert step.tid in s.tasks;
      hide Next;
      TaskStepKeepsReplies(s, step, s', known);
    }
  }

  // Every thread opened in the first n + 1 states of a run.
  function OpenedIn(states: seq<State>, n: nat): Opened
    requires n < |states|
  {
    NowOpened(if n == 0 then map[] else OpenedIn(states, n - 1), states[n].db)
  }

  lemma ReplyInvInit(s: State)
    requires Init(s)
    ensures ReplyInv(s, NowOpened(map[], s.db))
  {
  }

  lemma {:induction false} ReplyInvAlways(states: seq<State>, steps: seq<Step>, n: nat)
    requires Run(states, steps) && n < |states|
    ensures ReplyInv(states[n], OpenedIn(states, n))
  {
    hide Next, LockInv, SessionInv, ReplyInv, NowOpened;
    if n == 0 {
      ReplyInvInit(states[0]);
    } else {
      ReplyInvAlways(states, steps, n - 1);
      LockInvAlways(states, steps, n - 1);
      SessionInvAlways(states, steps, n - 1);
      ReplyInvStep(states[n - 1], steps[n - 1], states[n], OpenedIn(states, n - 1));
    }
  }

  // ----- The theorem -----

  // Whatever has happened since, a reply to a post about a session (an
  // acknowledgement, a piece of its output, a warning, the note of an adoption,
  // an item of !sessions, the note of a denial) finds the thread and the session
  // that the post was about as long as that session is kept, and nothing after that.
  lemma RepliesReachTheirSession(states: seq<State>, steps: seq<Step>, n: nat, i: nat)
    requires Run(states, steps) && n < |states| && i < |states[n].h.posts|
    requires Speaks(states[n].h.posts[i].kind) && states[n].h.posts[i].event != ""
    ensures var s, post := states[n], states[n].h.posts[i];
            if post.root in s.db.sessions then
              GetSessionByEvent(s.db, post.event) == Some((post.root, s.db.sessions[post.root]))
              && s.db.sessions[post.root].id == post.session
            else GetSessionByEvent(s.db, post.event) == None
  {
    ReplyInvAlways(states, steps, n);
    var s, post := states[n], states[n].h.posts[i];
    assert PostOk(s, OpenedIn(states, n), post);
    hide OpenedIn;
  }
}
