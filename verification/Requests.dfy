// What a handler makes of its message over whole runs: whom it listens to, what
// the commands do, and which messages lie behind the turns.
module Requests {
  import opened Prelude
  import opened Store
  import opened Dispatching
  import opened Framing
  import opened Locking
  import opened Sessions
  import opened Turns
  import Consent

  // ----- Routing -----

  // A task that no step of its own and no restart has touched is as it was.
  lemma Undisturbed(states: seq<State>, steps: seq<Step>, n: nat, tid: TaskId)
    requires Run(states, steps) && 0 < n < |states| && TaskOf(steps[n - 1]) != Some(tid)
    requires tid in states[n - 1].tasks && tid in states[n].tasks
    ensures states[n].tasks[tid] == states[n - 1].tasks[tid]
  {
    LockInvAlways(states, steps, n - 1);
    assert Next(states[n - 1], steps[n - 1]) == Some(states[n]);
    hide LockInv, Next, Run;
    NotACrash(states[n - 1], steps[n - 1], states[n], tid);
    OtherTasksStay(states[n - 1], steps[n - 1], states[n], tid);
  }

  lemma ReplyRoutes(s: State, step: Step, u: State, message: Message, root: EventId)
    requires Next(s, step) == Some(u) && step.Route? && step.tid in s.tasks
    requires s.tasks[step.tid].phase == Routing(message) && message.trusted && message.threadRoot.Some?
    requires root in s.db.sessions
    requires GetSessionByEvent(s.db, message.threadRoot.value) == Some((root, s.db.sessions[root]))
    ensures u.tasks == s.tasks[step.tid := Task(message.room, root, s.db.sessions[root].id, Replied, Acking)]
    ensures u.h == s.h
  {
    hide GetSessionByEvent;
  }

  lemma SpawnRoutes(s: State, step: Step, u: State, message: Message)
    requires Next(s, step) == Some(u) && step.Route? && step.tid in s.tasks
    requires s.tasks[step.tid].phase == Routing(message)
    requires message.trusted && message.threadRoot.None? && message.command.NoCommand?
    ensures u.tasks == s.tasks[step.tid := Task(message.room, message.id, "", Spawned, Waiting)] && u.h == s.h
  {
  }

  // Every message that is dispatched has a handler, and until that takes its first
  // step or a restart comes it is there to route that message.
  lemma {:induction false} DispatchedIsRouted(states: seq<State>, steps: seq<Step>, m: nat, n: nat)
    requires Run(states, steps) && m < n < |states| && steps[m].Dispatch?
    requires forall k | m < k < n :: TaskOf(steps[k]) != Some(steps[m].tid) && !steps[k].Crash?
    ensures steps[m].tid in states[n].tasks
    ensures var message := steps[m].message;
            && states[n].tasks[steps[m].tid] == Task(message.room, message.id, "", Utility, Routing(message))
            && states[m + 1].h.dispatched == states[m].h.dispatched[message.id := message]
    decreases n
  {
    if n == m + 1 {
      assert Next(states[m], steps[m]) == Some(states[n]);
    } else {
      hide Next;
      DispatchedIsRouted(states, steps, m, n - 1);
      LockInvAlways(states, steps, n - 1);
      assert Next(states[n - 1], steps[n - 1]) == Some(states[n]);
      hide LockInv, Run;
      OtherTasksStay(states[n - 1], steps[n - 1], states[n], steps[m].tid);
    }
  }

  // A message of anybody but the trusted sender does nothing at all.
  lemma UntrustedIsIgnored(states: seq<State>, steps: seq<Step>, n: nat, message: Message)
    requires Run(states, steps) && n < |steps| && steps[n].Route? && steps[n].tid in states[n].tasks
    requires states[n].tasks[steps[n].tid].phase == Routing(message) && !message.trusted
    ensures states[n + 1] == states[n].(tasks := states[n].tasks - {steps[n].tid})
  {
    LockInvAlways(states, steps, n);
    assert Next(states[n], steps[n]) == Some(states[n + 1]);
    InvOk(states[n], steps[n].tid, message.room);
    InvOk(states[n], RECONCILER, message.room);
    hide LockInv, Run;
  }

  // A reply that belongs to no session starts nothing: it is answered with a hint or not at all.
  lemma StrayReplyStartsNothing(states: seq<State>, steps: seq<Step>, n: nat, message: Message)
    requires Run(states, steps) && n < |steps| && steps[n].Route? && steps[n].tid in states[n].tasks
    requires states[n].tasks[steps[n].tid].phase == Routing(message)
    requires message.threadRoot.Some? && GetSessionByEvent(states[n].db, message.threadRoot.value).None?
    ensures var s, u, tid := states[n], states[n + 1], steps[n].tid;
            && u.db == s.db && u.h == s.h
            && (tid in u.tasks ==> message.trusted && u.tasks[tid] == s.tasks[tid].(phase := Noting(1)))
  {
    hide Unlocked, MirrorStep, RowsOfRoom, GetSessionByEvent, Init;
    assert Next(states[n], steps[n]) == Some(states[n + 1]);
    hide Run;
  }

  // The other commands are answered: !cancel looks for a process first, and a list
  // or an adoption that finds nothing says so.
  lemma CommandsAreAnswered(states: seq<State>, steps: seq<Step>, n: nat, message: Message)
    requires Run(states, steps) && n < |steps| && steps[n].Route? && steps[n].tid in states[n].tasks
    requires states[n].tasks[steps[n].tid].phase == Routing(message) && message.trusted && message.threadRoot.None?
    requires || message.command.CancelCommand? || message.command.OtherCommand?
             || (message.command.MirrorCommand? && steps[n].pick.None?)
             || (message.command.SessionsCommand? && steps[n].items == [])
    ensures var s, u, tid := states[n], states[n + 1], steps[n].tid;
            && u.db == s.db && u.h == s.h && tid in u.tasks
            && u.tasks[tid] == s.tasks[tid].(phase := u.tasks[tid].phase)
            && match message.command
               case CancelCommand => u.tasks[tid].phase == Cancelling
               case OtherCommand => u.tasks[tid].phase == Noting(steps[n].posts)
               case _ => u.tasks[tid].phase == Noting(1)
  {
    hide Unlocked, RowsOfRoom, GetSessionByEvent, Init;
    assert Next(states[n], steps[n]) == Some(states[n + 1]);
    hide Run;
  }

  // ----- !mirror -----

  lemma MirrorInserts(s: State, step: Step, u: State, message: Message, id: SessionId)
    requires Next(s, step) == Some(u) && step.Route? && step.tid in s.tasks && step.pick == Some(id)
    requires s.tasks[step.tid].phase == Routing(message) && message.room in s.agents && message.id !in s.db.sessions
    requires message.trusted && message.threadRoot.None? && message.command.MirrorCommand?
    ensures var row := Session(message.room, s.agents[message.room], id, step.now, step.now);
            && u.db.sessions == s.db.sessions[message.id := row]
            && u.tasks == s.tasks[step.tid := Task(message.room, message.id, id, Utility, Mirroring)]
            && u.h == s.h && id in s.transcripts
            && forall r | r in s.db.sessions && s.db.sessions[r].room == message.room :: s.db.sessions[r].id != id
  {
    hide RowsOfRoom, GetSessionByEvent, Finish;
  }

  // !mirror files a transcript that the room does not track as a session of the
  // message's own thread, with the room's agent.
  lemma MirrorAdopts(states: seq<State>, steps: seq<Step>, n: nat, message: Message, id: SessionId)
    requires Run(states, steps) && n < |steps| && steps[n].Route? && steps[n].tid in states[n].tasks
    requires states[n].tasks[steps[n].tid].phase == Routing(message) && steps[n].pick == Some(id)
    requires message.trusted && message.threadRoot.None? && message.command.MirrorCommand?
    ensures message.room in states[n].agents
    ensures var s, u := states[n], states[n + 1];
            var row := Session(message.room, s.agents[message.room], id, steps[n].now, steps[n].now);
            && message.id !in s.db.sessions
            && u.db.sessions == s.db.sessions[message.id := row]
            && u.tasks == s.tasks[steps[n].tid := Task(message.room, message.id, id, Utility, Mirroring)]
            && id in s.transcripts
            && forall r | r in s.db.sessions && s.db.sessions[r].room == message.room :: s.db.sessions[r].id != id
  {
    LockInvAlways(states, steps, n);
    SessionInvAlways(states, steps, n);
    assert Next(states[n], steps[n]) == Some(states[n + 1]);
    InvOk(states[n], steps[n].tid, message.room);
    assert ComingOk(states[n], steps[n].tid);
    hide LockInv, SessionInv, Run, Next;
    MirrorInserts(states[n], steps[n], states[n + 1], message, id);
  }

  // ----- !sessions -----

  // What a step of a task that lists sessions, or adopts one, does to it.
  ghost predicate ChoreCourse(s: State, step: Step, u: State, tid: TaskId)
    requires tid in s.tasks
  {
    var a := s.tasks[tid];
    && u.h.launches == s.h.launches
    && (tid in u.tasks ==> u.tasks[tid] == a.(phase := u.tasks[tid].phase))
    && match a.phase
       case Heading(items) =>
         if step.Posted? then
           && tid in u.tasks && u.tasks[tid].phase == Enumerating(items)
           && u.h.posts == s.h.posts + [Post(a.room, a.root, a.session, ListHeader, step.event)]
         else step.Abort? && tid !in u.tasks
       case Enumerating(items) =>
         if step.Posted? then
           && items != []
           && u.h.posts == s.h.posts + [Post(a.room, items[0].root, items[0].session, ListItem, step.event)]
           && (if tid in u.tasks then |items| > 1 && u.tasks[tid].phase == Enumerating(items[1..])
               else |items| == 1 || items[0].root !in s.db.sessions)
         else step.Abort? && tid !in u.tasks
       case Mirroring =>
         if step.Registered? then tid in u.tasks && u.tasks[tid].phase == MirrorAcking && u.h.posts == s.h.posts
         else step.Abort? && tid !in u.tasks
       case MirrorAcking =>
         if step.Posted? then
           tid !in u.tasks && u.h.posts == s.h.posts + [Post(a.room, a.root, a.session, Adopted, step.event)]
         else step.Abort? && tid !in u.tasks
       case Noting(left) =>
         if step.Posted? then
           && u.h.posts == s.h.posts + [Post(a.room, a.root, a.session, Note, step.event)]
           && (if tid in u.tasks then left > 1 && u.tasks[tid].phase == Noting(left - 1) else left <= 1)
         else step.Abort? && tid !in u.tasks
       case Cancelling =>
         if step.CancelPoll? then
           && tid in u.tasks && u.h.posts == s.h.posts && u.db == s.db
           && u.tasks[tid].phase == (if step.giveUp || a.room in s.active then Noting(1) else Cancelling)
         else step.Abort? && tid !in u.tasks
       case _ => true
  }

  lemma PostedChore(s: State, tid: TaskId, event: EventId, now: int)
    requires PostedStep(s, tid, event, now).Some?
    requires var p := s.tasks[tid].phase; p.Heading? || p.Enumerating? || p.MirrorAcking? || p.Noting?
    ensures ChoreCourse(s, Posted(tid, event, now), PostedStep(s, tid, event, now).value, tid)
  {
    hide AliasThen, AliasFinish, Finish, FreshEvent;
    var a, v := s.tasks[tid], Logged(s, PostOf(s.tasks[tid], event));
    match a.phase
    case Heading(items) =>
    case Noting(left) => LeaveGoes(v, tid);
    case Enumerating(items) =>
      AliasFinishGoes(v, tid, event, items[0].root);
      AliasThenGoes(v, tid, event, items[0].root, Enumerating(items[1..]));
    case MirrorAcking => AliasFinishGoes(v, tid, event, a.root);
  }

  lemma ChoreGoes(s: State, step: Step, u: State, tid: TaskId)
    requires Next(s, step) == Some(u) && TaskOf(step) == Some(tid) && tid in s.tasks
    requires Chore(s.tasks[tid].phase) && !s.tasks[tid].phase.Routing?
    ensures ChoreCourse(s, step, u, tid)
  {
    ChoreSteps(s, step, tid);
    hide PostedStep, InPhase, CancelStep;
    match step
    case Posted(_, event, now) =>
      hide ChoreCourse;
      PostedChore(s, tid, event, now);
    case CancelPoll(_, giveUp) =>
      hide ChoreCourse;
      CancelChore(s, tid, giveUp);
    case Registered(_) => assert u == InPhase(s, tid, MirrorAcking); InPhaseMoves(s, tid, MirrorAcking);
    case Abort(_) => LeaveGoes(s, tid); hide AbortTask;
  }

  lemma CancelChore(s: State, tid: TaskId, giveUp: bool)
    requires CancelStep(s, tid, giveUp).Some?
    ensures ChoreCourse(s, CancelPoll(tid, giveUp), CancelStep(s, tid, giveUp).value, tid)
  {
  }

  lemma InPhaseMoves(s: State, tid: TaskId, p: Phase)
    requires tid in s.tasks
    ensures InPhase(s, tid, p).tasks == s.tasks[tid := s.tasks[tid].(phase := p)] && InPhase(s, tid, p).h == s.h
  {
  }

  lemma ChoreSteps(s: State, step: Step, tid: TaskId)
    requires Next(s, step).Some? && TaskOf(step) == Some(tid) && tid in s.tasks
    requires Chore(s.tasks[tid].phase) && !s.tasks[tid].phase.Routing?
    ensures var p := s.tasks[tid].phase;
            || step.Abort?
            || (step.Registered? && p.Mirroring?)
            || (step.CancelPoll? && p.Cancelling?)
            || (step.Posted? && !p.Mirroring? && !p.Cancelling?)
  {
    hide FreshEvent, AliasThen, AliasFinish, InPhase, AbortTask;
  }

  // The room's sessions, the last used first, but for those beyond the tenth.
  predicate Newest(t: Tables, room: RoomId, items: seq<Listed>) {
    && (forall x | x in items ::
          x.root in t.sessions && t.sessions[x.root].room == room && t.sessions[x.root].id == x.session)
    && (forall i, j | 0 <= i < j < |items| ::
          && items[i].root != items[j].root
          && t.sessions[items[i].root].lastUsedAt >= t.sessions[items[j].root].lastUsedAt)
    && (forall r | r in t.sessions && t.sessions[r].room == room ::
          || Listed(r, t.sessions[r].id) in items
          || (|items| == 10 && forall x | x in items :: t.sessions[x.root].lastUsedAt >= t.sessions[r].lastUsedAt))
    && |items| <= 10
  }

  // How far the list is: the header and then one post for each item, in order.
  predicate ListedSoFar(posts: seq<Post>, room: RoomId, items: seq<Listed>, p: Phase) {
    if p.Heading? then posts == [] && p.items == items
    else
      && p.Enumerating? && 1 <= |posts| <= |items| && p.items == items[|posts| - 1..]
      && posts[0].kind == ListHeader
      && forall k | 1 <= k < |posts| ::
           posts[k] == Post(room, items[k - 1].root, items[k - 1].session, ListItem, posts[k].event)
  }

  lemma SessionsRoute(s: State, step: Step, u: State, message: Message)
    requires Next(s, step) == Some(u) && step.Route? && step.tid in s.tasks
    requires s.tasks[step.tid].phase == Routing(message)
    requires message.trusted && message.threadRoot.None? && message.command.SessionsCommand?
    ensures Newest(s.db, message.room, step.items)
    ensures var next := if step.items == [] then Noting(1) else Heading(step.items);
            u.tasks == s.tasks[step.tid := s.tasks[step.tid].(phase := next)]
    ensures u.h == s.h && u.db == s.db
  {
    hide GetSessionByEvent, Finish, MirrorStep;
  }

  lemma ListGoesOn(s: State, step: Step, u: State, tid: TaskId, posts: seq<Post>, room: RoomId, items: seq<Listed>)
    requires tid in s.tasks && tid in u.tasks && ChoreCourse(s, step, u, tid) && s.tasks[tid].room == room
    requires items != [] && ListedSoFar(posts, room, items, s.tasks[tid].phase)
    ensures ListedSoFar(posts + More(s.h.posts, u.h.posts), room, items, u.tasks[tid].phase)
    ensures u.tasks[tid].room == room
  {
    var a := s.tasks[tid];
    assert step.Posted?;
    var post :=
      if a.phase.Heading? then Post(a.room, a.root, a.session, ListHeader, step.event)
      else Post(a.room, a.phase.items[0].root, a.phase.items[0].session, ListItem, step.event);
    MoreIs(s.h.posts, [post]);
    hide ChoreCourse;
    if a.phase.Heading? {
      assert u.tasks[tid].phase == Enumerating(items) && items[0..] == items;
    } else {
      assert u.tasks[tid].phase.items == items[|posts|..];
      assert (posts + [post])[|posts|] == post;
    }
  }

  lemma {:induction false} ListLasts(states: seq<State>, steps: seq<Step>, m: nat, n: nat, message: Message)
    requires Run(states, steps) && m < n < |states| && steps[m].Route? && steps[m].tid in states[m].tasks
    requires states[m].tasks[steps[m].tid].phase == Routing(message)
    requires message.trusted && message.threadRoot.None? && message.command.SessionsCommand?
    requires Lives(states, m + 1, n, steps[m].tid) && steps[m].items != []
    ensures var b := states[n].tasks[steps[m].tid];
            b.room == message.room &&
            ListedSoFar(PostedBy(states, steps, m + 1, n, steps[m].tid), message.room, steps[m].items, b.phase)
    decreases n
  {
    hide Next, Newest, ListedSoFar, ChoreCourse;
    var tid := steps[m].tid;
    if n == m + 1 {
      ListStarts(states, steps, m, message);
    } else {
      Earlier(states, steps, m + 1, n, tid);
      hide Run, Lives;
      ListLasts(states, steps, m, n - 1, message);
      ListNext(states, steps, m, n, tid, message.room, steps[m].items);
    }
  }

  // !sessions answers with the room's ten last used sessions: the header, and then
  // a post for each of them in that order, which speaks for its thread and session.
  lemma SessionsAreListed(states: seq<State>, steps: seq<Step>, m: nat, n: nat, message: Message)
    requires Run(states, steps) && m < n < |states| && steps[m].Route? && steps[m].tid in states[m].tasks
    requires states[m].tasks[steps[m].tid].phase == Routing(message)
    requires message.trusted && message.threadRoot.None? && message.command.SessionsCommand?
    requires steps[m].items != [] && forall k | m + 1 < k <= n :: steps[m].tid in states[k].tasks
    ensures Newest(states[m].db, message.room, steps[m].items) && steps[m].tid in states[n].tasks
    ensures var b := states[n].tasks[steps[m].tid];
            b.room == message.room &&
            ListedSoFar(PostedBy(states, steps, m + 1, n, steps[m].tid), message.room, steps[m].items, b.phase)
  {
    hide Next, Newest, ListedSoFar, Init;
    ListStarts(states, steps, m, message);
    assert Lives(states, m + 1, n, steps[m].tid);
    hide Run, Lives, PostedBy;
    ListLasts(states, steps, m, n, message);
  }

  lemma ListStarts(states: seq<State>, steps: seq<Step>, m: nat, message: Message)
    requires Run(states, steps) && m < |steps| && steps[m].Route? && steps[m].tid in states[m].tasks
    requires states[m].tasks[steps[m].tid].phase == Routing(message)
    requires message.trusted && message.threadRoot.None? && message.command.SessionsCommand? && steps[m].items != []
    ensures Newest(states[m].db, message.room, steps[m].items) && steps[m].tid in states[m + 1].tasks
    ensures var b := states[m + 1].tasks[steps[m].tid];
            b.room == message.room && ListedSoFar([], message.room, steps[m].items, b.phase)
  {
    LockInvAlways(states, steps, m);
    InvOk(states[m], steps[m].tid, message.room);
    assert Next(states[m], steps[m]) == Some(states[m + 1]);
    hide LockInv, Next, Run, Newest;
    SessionsRoute(states[m], steps[m], states[m + 1], message);
  }

  lemma ListNext(states: seq<State>, steps: seq<Step>, m: nat, n: nat, tid: TaskId, room: RoomId, items: seq<Listed>)
    requires Run(states, steps) && m + 1 < n < |states| && tid in states[n - 1].tasks && tid in states[n].tasks
    requires states[n - 1].tasks[tid].room == room && items != []
    requires ListedSoFar(PostedBy(states, steps, m + 1, n - 1, tid), room, items, states[n - 1].tasks[tid].phase)
    ensures states[n].tasks[tid].room == room
    ensures ListedSoFar(PostedBy(states, steps, m + 1, n, tid), room, items, states[n].tasks[tid].phase)
  {
    hide Next, ChoreCourse, Init;
    var a := states[n - 1].tasks[tid];
    assert a.phase.Heading? || a.phase.Enumerating?;
    PostedNext(states, steps, m + 1, n, tid);
    assert Next(states[n - 1], steps[n - 1]) == Some(states[n]);
    hide ListedSoFar, PostedBy;
    if TaskOf(steps[n - 1]) == Some(tid) {
      hide Run;
      ChoreGoes(states[n - 1], steps[n - 1], states[n], tid);
      ListGoesOn(states[n - 1], steps[n - 1], states[n], tid, PostedBy(states, steps, m + 1, n - 1, tid), room, items);
    } else {
      Undisturbed(states, steps, n, tid);
      assert PostedBy(states, steps, m + 1, n, tid) == PostedBy(states, steps, m + 1, n - 1, tid);
    }
  }

  // ----- What is behind a turn -----

  // The message that was routed at step k asks for such a turn: it replies to the
  // turn's thread, or is the message the turn's own thread begins with.
  ghost predicate AskedAt(states: seq<State>, steps: seq<Step>, k: nat, turn: Turn, origin: Origin)
    requires k < |steps| && k < |states|
  {
    && steps[k].Route? && steps[k].tid in states[k].tasks && states[k].tasks[steps[k].tid].phase.Routing?
    && var message := states[k].tasks[steps[k].tid].phase.message;
       && message.trusted && message.room == turn.room
       && if origin == Spawned then message.threadRoot.None? && message.command.NoCommand? && message.id == turn.root
          else
            && message.threadRoot.Some? && turn.root in states[k].db.sessions
            && states[k].db.sessions[turn.root].id == turn.session
            && (message.threadRoot.value == turn.root ||
                (message.threadRoot.value in states[k].db.aliases &&
                 states[k].db.aliases[message.threadRoot.value] == turn.root))
  }

  // Turns that go back to a message, and not to an approval.
  predicate Requested(origin: Origin) {
    origin == Spawned || origin == Replied
  }

  ghost predicate Asked(states: seq<State>, steps: seq<Step>, n: nat, turn: Turn, origin: Origin)
    requires n <= |steps| && n <= |states|
  {
    Requested(origin) ==> exists k | 0 <= k < n :: AskedAt(states, steps, k, turn, origin)
  }

  ghost predicate AllAsked(states: seq<State>, steps: seq<Step>, n: nat)
    requires n < |states| == |steps| + 1
  {
    && (forall t | t in states[n].tasks ::
          Asked(states, steps, n, TurnOf(states[n].tasks[t]), states[n].tasks[t].origin))
    && (forall i | 0 <= i < |states[n].h.launches| ::
          Asked(states, steps, n, states[n].h.launches[i].turn, states[n].h.launches[i].origin))
  }

  lemma AskedStill(states: seq<State>, steps: seq<Step>, n: nat, turn: Turn, later: Turn, origin: Origin)
    requires n < |states| == |steps| + 1 && n > 0 && Asked(states, steps, n - 1, turn, origin)
    requires later == turn.(session := later.session) && (origin != Spawned ==> later == turn)
    ensures Asked(states, steps, n, later, origin)
  {
    if Requested(origin) {
      var k :| 0 <= k < n - 1 && AskedAt(states, steps, k, turn, origin);
      assert AskedAt(states, steps, k, later, origin);
    }
  }

  // A task after a step: it goes back to the same task, or nobody asked for a turn
  // of it, or the step has just routed it.
  ghost predicate Inherits(s: State, step: Step, u: State, t: TaskId)
    requires t in u.tasks
  {
    var b := u.tasks[t];
    || !Requested(b.origin)
    || (step.Route? && step.tid == t)
    || (t in s.tasks && s.tasks[t].origin == b.origin && TurnOf(b) == TurnOf(s.tasks[t]).(session := b.session) &&
        (b.origin != Spawned ==> b.session == s.tasks[t].session))
  }

  lemma OthersInherit(s: State, step: Step, u: State, t: TaskId)
    requires LockInv(s) && Next(s, step) == Some(u) && t in u.tasks && TaskOf(step) != Some(t)
    ensures Inherits(s, step, u, t)
  {
    hide LockInv;
    if IsQuietStep(s, step) {
      hide Next;
      QuietSteps(s, step, u);
    } else if step.Registered? || step.Acquire? || step.Query? || step.Record? {
      hide Next;
      LoudStepsMoveOnly(s, step, u);
    } else if step.PassAct? {
      PassActInherits(s, t);
    } else if step.DenyPosted? {
      DenyPostedMovesNothing(s, step.event);
    } else {
      hide Next;
      Consent.NotQuietIsOuter(s, step);
      Consent.OuterStartsNothing(s, step, u);
    }
  }

  lemma PassActInherits(s: State, t: TaskId)
    requires PassActStep(s).Some? && t in PassActStep(s).value.tasks
    ensures Inherits(s, PassAct, PassActStep(s).value, t)
  {
    hide PassActStep, Claim, Drop, Deny, Requested;
    PassRests(s);
    if s.pass.todo != [] {
      PassActIsOneOf(s);
      PassActCases(s, s.pass.todo[0], s.pass.todo[1..], s.pass.states);
      ResumesAreNotRequested(s.pass.todo[0]);
    }
  }

  lemma ResumesAreNotRequested(row: Pending)
    ensures !Requested(Approved(row.approval))
  {
  }

  lemma NextChore(s: State, step: Step, t: TaskId)
    requires Next(s, step).Some? && TaskOf(step) == Some(t) && t in s.tasks
    requires Chore(s.tasks[t].phase) && !step.Route?
    ensures step.Posted? || step.CancelPoll? || step.Abort? || (step.Registered? && s.tasks[t].phase.Mirroring?)
  {
    hide FreshEvent, PostOf, AliasThen, AliasFinish, InPhase, AbortTask;
  }

  lemma OwnInherits(s: State, step: Step, u: State, t: TaskId)
    requires Next(s, step) == Some(u) && t in u.tasks && TaskOf(step) == Some(t) && (step.Dispatch? || t in s.tasks)
    ensures Inherits(s, step, u, t)
  {
    hide Course, ChoreCourse;
    if step.Dispatch? || step.Route? {
    } else if Chore(s.tasks[t].phase) {
      NoLongerRouting(s, step, t);
      ChoreGoes(s, step, u, t);
      hide Next;
      ChoreInherits(s, step, u, t);
    } else {
      TurnCourse(s, step, u, t);
      hide Next;
      CourseInherits(s, step, u, t);
    }
  }

  lemma NoLongerRouting(s: State, step: Step, t: TaskId)
    requires Next(s, step).Some? && TaskOf(step) == Some(t) && t in s.tasks && !step.Route? && !step.Dispatch?
    requires t in Next(s, step).value.tasks
    ensures !s.tasks[t].phase.Routing?
  {
    hide FreshEvent, PostOf, AliasThen, AliasFinish, InPhase, FreshSession, QueryAnswer;
  }

  lemma ChoreInherits(s: State, step: Step, u: State, t: TaskId)
    requires t in s.tasks && t in u.tasks && ChoreCourse(s, step, u, t)
    ensures Inherits(s, step, u, t)
  {
  }

  lemma CourseInherits(s: State, step: Step, u: State, t: TaskId)
    requires t in s.tasks && t in u.tasks && Course(s, step, u, t)
    ensures Inherits(s, step, u, t)
  {
  }

  lemma MirrorStaysUtility(s: State, tid: TaskId, message: Message, pick: Option<SessionId>, now: int)
    requires tid in s.tasks && s.tasks[tid].origin == Utility && MirrorStep(s, tid, message, pick, now).Some?
    ensures var u := MirrorStep(s, tid, message, pick, now).value;
            (tid in u.tasks ==> u.tasks[tid].origin == Utility) && u.h == s.h
  {
    hide Unlocked, Unmirrored, InsertSession;
  }

  // A message that is not trusted, finds no session, or is a command asks for no turn.
  lemma OtherRoutes(s: State, step: Step, u: State)
    requires Next(s, step) == Some(u) && step.Route? && step.tid in s.tasks && s.tasks[step.tid].origin == Utility
    requires var m := s.tasks[step.tid].phase.message;
             || !m.trusted
             || (m.threadRoot.Some? && GetSessionByEvent(s.db, m.threadRoot.value).None?)
             || (m.threadRoot.None? && !m.command.NoCommand?)
    ensures (step.tid in u.tasks ==> u.tasks[step.tid].origin == Utility) && u.h == s.h
  {
    hide Finish, InPhase, RowsOfRoom, GetSessionByEvent, MirrorStep;
    var tid, m := step.tid, s.tasks[step.tid].phase.message;
    LeaveGoes(s, tid);
    InPhaseMoves(s, tid, Noting(1));
    if m.trusted && m.threadRoot.None? {
      match m.command
      case MirrorCommand => MirrorStaysUtility(s, tid, m, step.pick, step.now);
      case SessionsCommand => InPhaseMoves(s, tid, Heading(step.items));
      case CancelCommand => InPhaseMoves(s, tid, Cancelling);
      case OtherCommand => InPhaseMoves(s, tid, Noting(step.posts));
    }
  }

  lemma RouteAsks(states: seq<State>, steps: seq<Step>, k: nat)
    requires k < |steps| && k + 1 < |states| && Next(states[k], steps[k]) == Some(states[k + 1])
    requires steps[k].Route? && steps[k].tid in states[k].tasks && states[k].tasks[steps[k].tid].origin == Utility
    requires states[k].tasks[steps[k].tid].phase.Routing?
    ensures var t := steps[k].tid;
            t in states[k + 1].tasks && Requested(states[k + 1].tasks[t].origin) ==>
              AskedAt(states, steps, k, TurnOf(states[k + 1].tasks[t]), states[k + 1].tasks[t].origin)
  {
    hide Next;
    var s, m := states[k], states[k].tasks[steps[k].tid].phase.message;
    if m.trusted && m.threadRoot.Some? && GetSessionByEvent(s.db, m.threadRoot.value).Some? {
      ReplyRoutes(s, steps[k], states[k + 1], m, GetSessionByEvent(s.db, m.threadRoot.value).value.0);
    } else if m.trusted && m.threadRoot.None? && m.command.NoCommand? {
      SpawnRoutes(s, steps[k], states[k + 1], m);
    } else {
      OtherRoutes(s, steps[k], states[k + 1]);
    }
  }

  // Whatever a step does, it starts claude for the task it belongs to or for nobody.
  lemma LaunchesInherit(s: State, step: Step, u: State)
    requires LockInv(s) && Next(s, step) == Some(u)
    ensures u.h.launches == s.h.launches ||
            (TaskOf(step).Some? && TaskOf(step).value in u.tasks &&
             var b := u.tasks[TaskOf(step).value];
             u.h.launches == s.h.launches + [Launch(TurnOf(b), b.origin)])
  {
    hide LockInv;
    if IsQuietStep(s, step) {
      hide Next;
      QuietSteps(s, step, u);
    } else if step.PassAct? {
      PassActStartsNothing(s);
    } else if step.DenyPosted? {
      DenyPostedMovesNothing(s, step.event);
    } else if step.Registered? || step.Acquire? || step.Query? || step.Record? {
      hide FreshSession, StampsOf, LastSpawn, QueryAnswer;
    } else {
      hide Next;
      Consent.NotQuietIsOuter(s, step);
      Consent.OuterStartsNothing(s, step, u);
    }
  }

  lemma PassActStartsNothing(s: State)
    requires PassActStep(s).Some?
    ensures PassActStep(s).value.h == s.h && PassActStep(s).value.approvals == s.approvals
  {
    hide PassActStep, Claim, Drop, Deny;
    PassRests(s);
    if s.pass.todo != [] {
      PassActIsOneOf(s);
      CasesSayNothing(s, s.pass.todo[0], s.pass.todo[1..], s.pass.states);
    }
  }

  lemma CasesSayNothing(s: State, row: Pending, rest: seq<Pending>, states: map<ApprovalId, ApprovalState>)
    ensures Claim(s, row, rest, states).h == s.h && Claim(s, row, rest, states).approvals == s.approvals
    ensures Drop(s, row, rest, states).h == s.h && Drop(s, row, rest, states).approvals == s.approvals
    ensures Deny(s, row, rest, states).h == s.h && Deny(s, row, rest, states).approvals == s.approvals
  {
    hide DeletePending;
  }

  lemma {:induction false} AllAskedAlways(states: seq<State>, steps: seq<Step>, n: nat)
    requires Run(states, steps) && n < |states|
    ensures AllAsked(states, steps, n)
  {
    hide Next, Asked;
    if n > 0 {
      LockInvAlways(states, steps, n - 1);
      assert Next(states[n - 1], steps[n - 1]) == Some(states[n]);
      AllAskedAlways(states, steps, n - 1);
      hide Run, LockInv, AllAsked;
      forall t | t in states[n].tasks
        ensures Asked(states, steps, n, TurnOf(states[n].tasks[t]), states[n].tasks[t].origin)
      {
        TaskAsked(states, steps, n, t);
      }
      forall i | 0 <= i < |states[n].h.launches|
        ensures Asked(states, steps, n, states[n].h.launches[i].turn, states[n].h.launches[i].origin)
      {
        LaunchAsked(states, steps, n, i);
      }
      AllAskedIs(states, steps, n);
    }
  }

  lemma AllAskedIs(states: seq<State>, steps: seq<Step>, n: nat)
    requires n < |states| == |steps| + 1
    requires forall t | t in states[n].tasks ::
               Asked(states, steps, n, TurnOf(states[n].tasks[t]), states[n].tasks[t].origin)
    requires forall i | 0 <= i < |states[n].h.launches| ::
               Asked(states, steps, n, states[n].h.launches[i].turn, states[n].h.launches[i].origin)
    ensures AllAsked(states, steps, n)
  {
  }

  lemma TaskAsked(states: seq<State>, steps: seq<Step>, n: nat, t: TaskId)
    requires 0 < n < |states| == |steps| + 1 && LockInv(states[n - 1]) && AllAsked(states, steps, n - 1)
    requires Next(states[n - 1], steps[n - 1]) == Some(states[n]) && t in states[n].tasks
    ensures Asked(states, steps, n, TurnOf(states[n].tasks[t]), states[n].tasks[t].origin)
  {
    var s, step, u, b := states[n - 1], steps[n - 1], states[n], states[n].tasks[t];
    if Requested(b.origin) {
      if step.Route? && step.tid == t {
        RoutesUtility(s, step);
        RouteAsks(states, steps, n - 1);
      } else {
        assert Inherits(s, step, u, t) by {
          if TaskOf(step) == Some(t) {
            OwnStepOwns(s, step, u, t);
            OwnInherits(s, step, u, t);
          } else {
            OthersInherit(s, step, u, t);
          }
        }
        hide Next, LockInv;
        AskedStill(states, steps, n, TurnOf(s.tasks[t]), TurnOf(b), b.origin);
      }
    }
  }

  lemma OwnStepOwns(s: State, step: Step, u: State, t: TaskId)
    requires Next(s, step) == Some(u) && TaskOf(step) == Some(t)
    ensures step.Dispatch? || t in s.tasks
  {
    hide FreshEvent, PostOf, AliasThen, AliasFinish, SpawnAcked, FreshSession, QueryAnswer, MirrorStep, RowsOfRoom;
  }

  lemma RoutesUtility(s: State, step: Step)
    requires LockInv(s) && Next(s, step).Some? && step.Route?
    ensures step.tid in s.tasks && s.tasks[step.tid].origin == Utility && s.tasks[step.tid].phase.Routing?
  {
    InvOk(s, step.tid, "");
    hide LockInv;
  }

  lemma LaunchAsked(states: seq<State>, steps: seq<Step>, n: nat, i: nat)
    requires 0 < n < |states| == |steps| + 1 && LockInv(states[n - 1]) && AllAsked(states, steps, n - 1)
    requires Next(states[n - 1], steps[n - 1]) == Some(states[n]) && i < |states[n].h.launches|
    ensures Asked(states, steps, n, states[n].h.launches[i].turn, states[n].h.launches[i].origin)
  {
    LaunchesInherit(states[n - 1], steps[n - 1], states[n]);
    if i < |states[n - 1].h.launches| {
      assert states[n].h.launches[i] == states[n - 1].h.launches[i];
      hide Next, LockInv;
      var launch := states[n].h.launches[i];
      AskedStill(states, steps, n, launch.turn, launch.turn, launch.origin);
    } else {
      TaskAsked(states, steps, n, TaskOf(steps[n - 1]).value);
    }
  }

  // Nobody but the trusted sender starts claude: behind every start that is not
  // due to an approval there is a trusted message in the same room, which began
  // the thread, or replied to it and so to the session that was resumed.
  lemma TurnsAreAsked(states: seq<State>, steps: seq<Step>, n: nat, i: nat)
    requires Run(states, steps) && n < |states| && i < |states[n].h.launches|
    requires states[n].h.launches[i].origin == Spawned || states[n].h.launches[i].origin == Replied
    ensures exists k | 0 <= k < n ::
              AskedAt(states, steps, k, states[n].h.launches[i].turn, states[n].h.launches[i].origin)
  {
    AllAskedAlways(states, steps, n);
    hide Run, Next;
    assert Asked(states, steps, n, states[n].h.launches[i].turn, states[n].h.launches[i].origin);
  }
}
