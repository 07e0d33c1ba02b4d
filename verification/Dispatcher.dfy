// The dispatcher as a state machine. One step runs one task from an `await`
// to the next (such a stretch of code is atomic), or is a move of the
// environment. Every `await` may suspend, and a free lock may go to any waiter.
module Dispatching {
  import opened Prelude
  import opened Store

  // ----- State -----

  type TaskId = nat
  type Proc = nat

  // The reconcile loop's own turns run as this task; handlers have other ids.
  const RECONCILER: TaskId := 0
  const RATE_LIMIT_SECONDS: real := 10.0
  const PENDING_APPROVAL_EXPIRY_SECONDS: int := 600

  datatype Command = NoCommand | MirrorCommand | SessionsCommand | CancelCommand | OtherCommand

  datatype Message = Message(id: EventId, room: RoomId, trusted: bool, threadRoot: Option<EventId>, command: Command)

  // Which session is (or was) at work, in which thread of which room.
  datatype Turn = Turn(room: RoomId, root: EventId, session: SessionId)

  datatype Origin = Utility | Spawned | Replied | Approved(approval: ApprovalId)

  // A row that !sessions lists.
  datatype Listed = Listed(root: EventId, session: SessionId)

  // Where a task is suspended. start is the turn_start it has read.
  datatype Phase =
    | Routing(message: Message)               // created, not yet run
    | Acking                                  // post "Resuming..."
    | Registering                             // registry upsert, lock not yet held
    | Waiting                                 // room lock
    | Declining                               // post the rate-limit note
    | SpawnAcking                             // post "Working..."
    | SpawnRegistering                        // registry upsert
    | Launching(start: nat)                   // create_subprocess_exec
    | Running(start: nat, proc: Proc)         // communicate
    | Reaping(proc: Proc)                     // timed out and killed, not yet reaped
    | Warning                                 // post the timeout or failure note
    | Posting(start: nat, left: nat)          // post the response, left chunks to go
    | Querying(start: nat)                    // find_pending_approval, not yet answered
    | Queried(start: nat, found: Option<ApprovalId>)
    | Linking                                 // link_session
    | Mirroring                               // registry upsert of a mirrored session
    | MirrorAcking                            // post "Linked session"
    | Heading(items: seq<Listed>)            // post the !sessions header
    | Enumerating(items: seq<Listed>)        // post the !sessions items
    | Cancelling                              // waiting for a process to appear
    | Noting(left: nat)                       // posts that leave no trace in the tables

  datatype Task = Task(room: RoomId, root: EventId, session: SessionId, origin: Origin, phase: Phase)

  datatype ApprovalState = PendingApproval | ApprovedApproval | DeniedApproval | ConsumedApproval

  // A row of hitl_approvals. raiser is the turn whose process raised it, if it was
  // one of ours; during is the turn that was being watched for approvals then.
  datatype Approval = Approval(agent: AgentName, createdAt: nat, state: ApprovalState,
                               raiser: Option<Turn>, during: Option<Turn>)

  // The reconcile loop.
  datatype Pass =
    | Resting
    | Fetching(todo: seq<Pending>)
    | Acting(todo: seq<Pending>, states: map<ApprovalId, ApprovalState>)
    | Resuming(todo: seq<Pending>, states: map<ApprovalId, ApprovalState>)
    | Denying(row: Pending, todo: seq<Pending>, states: map<ApprovalId, ApprovalState>)

  datatype PostKind = Progress | RateLimited | Trouble | Chunk | Adopted | ListHeader | ListItem | Note | Refusal

  datatype Post = Post(room: RoomId, root: EventId, session: SessionId, kind: PostKind, event: EventId)

  datatype Launch = Launch(turn: Turn, origin: Origin)

  // What has happened so far. Steps look at it only to keep event ids apart: an
  // event is dispatched once, and a post gets an id that nobody has had.
  datatype History = History(
    dispatched: map<EventId, Message>,
    issued: set<EventId>,
    recorded: multiset<ApprovalId>,
    launches: seq<Launch>,
    posts: seq<Post>,
    stamps: map<RoomId, seq<real>>,
    signals: seq<(RoomId, Proc)>)

  datatype State = State(
    agents: map<RoomId, AgentName>,
    registry: bool,
    db: Tables,
    locks: map<RoomId, TaskId>,
    active: map<RoomId, Proc>,
    lastSpawn: map<RoomId, real>,
    tasks: map<TaskId, Task>,
    pass: Pass,
    approvals: map<ApprovalId, Approval>,
    transcripts: set<SessionId>,
    clock: nat,
    h: History)

  // _build_room_to_agent keeps one agent per room, and an agent has one room.
  predicate OneRoomEach(agents: map<RoomId, AgentName>) {
    forall r, q | r in agents && q in agents && agents[r] == agents[q] :: r == q
  }

  predicate Init(s: State) {
    && OneRoomEach(s.agents)
    && s.db == Tables(map[], map[], None, map[])
    && s.locks == map[] && s.active == map[] && s.lastSpawn == map[] && s.tasks == map[]
    && s.pass == Resting && s.approvals == map[]
    && s.h == History(map[], {}, multiset{}, [], [], map[], [])
  }

  function TurnOf(task: Task): Turn {
    Turn(task.room, task.root, task.session)
  }

  function RowTurn(row: Pending): Turn {
    Turn(row.room, row.root, row.session)
  }

  // The task is inside `async with _room_lock(room_id)`.
  predicate Holding(p: Phase) {
    p.Declining? || p.SpawnAcking? || p.SpawnRegistering? || p.Launching? || p.Running? || p.Reaping? ||
    p.Warning? || p.Posting? || p.Querying? || p.Queried? || p.Linking?
  }

  // The task is inside _run_claude with its process registered.
  predicate HasProc(p: Phase) {
    p.Running? || p.Reaping?
  }

  // turn_start has been read and find_pending_approval may still be acted on.
  predicate Watching(p: Phase) {
    p.Launching? || p.Running? || p.Posting? || p.Querying? || p.Queried?
  }

  // A spawn or mirror that has yet to insert its session row.
  predicate BeforeInsert(task: Task) {
    task.phase.Routing? || (task.origin == Spawned && (task.phase.Waiting? || task.phase.SpawnAcking?))
  }

  // ----- Steps -----

  datatype Step =
    // handler tasks
    | Dispatch(tid: TaskId, message: Message)
    | Route(tid: TaskId, pick: Option<SessionId>, items: seq<Listed>, posts: nat, now: int)
    | Posted(tid: TaskId, event: EventId, now: int)
    | Registered(tid: TaskId)
    | Acquire(tid: TaskId, wall: real, session: SessionId)
    | Launched(tid: TaskId, proc: Proc)
    | Exited(tid: TaskId, chunks: nat, now: int)
    | TimedOut(tid: TaskId)
    | Reaped(tid: TaskId)
    | Failed(tid: TaskId)
    | Query(tid: TaskId, found: Option<ApprovalId>)
    | Record(tid: TaskId, tool: string, now: int)
    | Linked(tid: TaskId)
    | CancelPoll(tid: TaskId, giveUp: bool)
    | Abort(tid: TaskId)
    // the reconcile loop
    | PassBegin(rows: seq<Pending>, now: int)
    | PassFetched(states: map<ApprovalId, ApprovalState>)
    | PassAct
    | DenyPosted(event: EventId)
    | PassAbort
    // the cleanup loop, restarts, and the world outside
    | Clean(cutoff: int)
    | Crash(agents: map<RoomId, AgentName>, registry: bool)
    | Raise(approval: ApprovalId, agent: AgentName, own: bool)
    | Settle(approval: ApprovalId, state: ApprovalState)
    | Transcript(session: SessionId)

  // The task a step belongs to.
  function TaskOf(step: Step): Option<TaskId> {
    match step
    case Dispatch(tid, _) => Some(tid)
    case Route(tid, _, _, _, _) => Some(tid)
    case Posted(tid, _, _) => Some(tid)
    case Registered(tid) => Some(tid)
    case Acquire(tid, _, _) => Some(tid)
    case Launched(tid, _) => Some(tid)
    case Exited(tid, _, _) => Some(tid)
    case TimedOut(tid) => Some(tid)
    case Reaped(tid) => Some(tid)
    case Failed(tid) => Some(tid)
    case Query(tid, _) => Some(tid)
    case Record(tid, _, _) => Some(tid)
    case Linked(tid) => Some(tid)
    case CancelPoll(tid, _) => Some(tid)
    case Abort(tid) => Some(tid)
    case _ => None
  }

  function InPhase(s: State, tid: TaskId, p: Phase): State
    requires tid in s.tasks
  {
    s.(tasks := s.tasks[tid := s.tasks[tid].(phase := p)])
  }

  // Leaving `async with`, if the task holds the lock.
  function Unlocked(s: State, tid: TaskId): map<RoomId, TaskId>
    requires tid in s.tasks
  {
    if Holding(s.tasks[tid].phase) then s.locks - {s.tasks[tid].room} else s.locks
  }

  // The task returns; a resumed pass goes on with its next row.
  function Finish(s: State, tid: TaskId): State
    requires tid in s.tasks
  {
    s.(tasks := s.tasks - {tid},
       locks := Unlocked(s, tid),
       pass := if tid == RECONCILER && s.pass.Resuming? then Acting(s.pass.todo, s.pass.states) else s.pass)
  }

  // The task raises: the finally clauses run, and a pass it belongs to is over.
  function AbortTask(s: State, tid: TaskId): State
    requires tid in s.tasks
  {
    s.(tasks := s.tasks - {tid},
       locks := Unlocked(s, tid),
       active := if HasProc(s.tasks[tid].phase) then s.active - {s.tasks[tid].room} else s.active,
       pass := if tid == RECONCILER then Resting else s.pass)
  }

  // register_alias, then on to phase p; a foreign-key error aborts the task.
  function AliasThen(s: State, tid: TaskId, event: EventId, root: EventId, p: Phase): State
    requires tid in s.tasks
  {
    match RegisterAlias(s.db, event, root)
    case Ok(t) => InPhase(s.(db := t), tid, p)
    case Err(_) => AbortTask(s, tid)
  }

  function AliasFinish(s: State, tid: TaskId, event: EventId, root: EventId): State
    requires tid in s.tasks
  {
    match RegisterAlias(s.db, event, root)
    case Ok(t) => Finish(s.(db := t), tid)
    case Err(_) => AbortTask(s, tid)
  }

  // turn_start is read and claude is started.
  function StartTurn(s: State, tid: TaskId): State
    requires tid in s.tasks
  {
    InPhase(s, tid, Launching(s.clock))
      .(clock := s.clock + 1,
        h := s.h.(launches := s.h.launches + [Launch(TurnOf(s.tasks[tid]), s.tasks[tid].origin)]))
  }

  // poll_loop starts a handler. An event comes once; one of our own posts is not
  // from the trusted sender.
  function DispatchStep(s: State, tid: TaskId, m: Message): Option<State> {
    if tid == RECONCILER || tid in s.tasks || m.room !in s.agents || m.id in s.h.dispatched ||
       (m.trusted && m.id in s.h.issued) then
      None
    else
      Some(s.(tasks := s.tasks[tid := Task(m.room, m.id, "", Utility, Routing(m))],
              h := s.h.(dispatched := s.h.dispatched[m.id := m])))
  }

  // The rows of a room, by session.
  predicate Tracked(t: Tables, room: RoomId, session: SessionId) {
    exists r | r in t.sessions :: t.sessions[r].room == room && t.sessions[r].id == session
  }

  // find_unmirrored_session_id: a transcript that the room does not track. It
  // looks at one project only, so there may be none for this room.
  predicate Unmirrored(s: State, room: RoomId, pick: Option<SessionId>) {
    match pick
    case Some(id) => id in s.transcripts && !Tracked(s.db, room, id)
    case None => true
  }

  // SELECT * FROM sessions WHERE room_id = ? ORDER BY last_used_at DESC LIMIT 10
  predicate RowsOfRoom(t: Tables, room: RoomId, items: seq<Listed>) {
    && |items| <= 10
    && (forall x | x in items ::
          x.root in t.sessions && t.sessions[x.root].room == room && t.sessions[x.root].id == x.session)
    && (forall i, j | 0 <= i < j < |items| ::
          && items[i].root != items[j].root
          && t.sessions[items[i].root].lastUsedAt >= t.sessions[items[j].root].lastUsedAt)
    && (forall r | r in t.sessions && t.sessions[r].room == room && Listed(r, t.sessions[r].id) !in items ::
          |items| == 10 && forall x | x in items :: t.sessions[x.root].lastUsedAt >= t.sessions[r].lastUsedAt)
  }

  // The first stretch of handle_event.
  function RouteStep(s: State, tid: TaskId, pick: Option<SessionId>, items: seq<Listed>, posts: nat, now: int)
    : Option<State>
  {
    if tid !in s.tasks || !s.tasks[tid].phase.Routing? then None
    else
      var m := s.tasks[tid].phase.message;
      if !m.trusted then Some(Finish(s, tid))
      else match m.threadRoot
        case Some(event) =>
          (match GetSessionByEvent(s.db, event)
           case Some(found) =>
             Some(s.(tasks := s.tasks[tid := Task(m.room, found.0, found.1.id, Replied, Acking)]))
           case None => Some(if posts == 0 then Finish(s, tid) else InPhase(s, tid, Noting(1))))
        case None =>
          match m.command
          case NoCommand => Some(s.(tasks := s.tasks[tid := Task(m.room, m.id, "", Spawned, Waiting)]))
          case MirrorCommand => MirrorStep(s, tid, m, pick, now)
          case SessionsCommand =>
            if !RowsOfRoom(s.db, m.room, items) then None
            else Some(InPhase(s, tid, if items == [] then Noting(1) else Heading(items)))
          case CancelCommand => Some(InPhase(s, tid, Cancelling))
          case OtherCommand => Some(InPhase(s, tid, Noting(posts)))
  }

  // !mirror checks and inserts without an await in between.
  function MirrorStep(s: State, tid: TaskId, m: Message, pick: Option<SessionId>, now: int): Option<State>
    requires tid in s.tasks
  {
    if m.room !in s.agents || !Unmirrored(s, m.room, pick) then None
    else match pick
      case None => Some(InPhase(s, tid, Noting(1)))
      case Some(id) =>
        match InsertSession(s.db, m.id, m.room, s.agents[m.room], id, now)
        case Err(_) => Some(AbortTask(s, tid))
        case Ok(t) => Some(s.(db := t, tasks := s.tasks[tid := Task(m.room, m.id, id, Utility, Mirroring)]))
  }

  // An event id the homeserver may return: none, or one never seen before.
  predicate FreshEvent(s: State, event: EventId) {
    event == "" || (event !in s.h.issued && event !in s.h.dispatched)
  }

  function KindOf(p: Phase): PostKind {
    match p
    case Declining => RateLimited
    case Warning => Trouble
    case Posting(_, _) => Chunk
    case MirrorAcking => Adopted
    case Heading(_) => ListHeader
    case Enumerating(_) => ListItem
    case Noting(_) => Note
    case _ => Progress
  }

  // What a task posts: a !sessions item speaks for the row it lists.
  function PostOf(task: Task, event: EventId): Post {
    var about :=
      if task.phase.Enumerating? && task.phase.items != [] then task.phase.items[0]
      else Listed(task.root, task.session);
    Post(task.room, about.root, about.session, KindOf(task.phase), event)
  }

  // The note about a denial.
  function RefusalOf(row: Pending, event: EventId): Post {
    Post(row.room, row.root, row.session, Refusal, event)
  }

  function Logged(s: State, post: Post): State {
    s.(h := s.h.(posts := s.h.posts + [post], issued := s.h.issued + {post.event}))
  }

  // A post_message returns, and the task runs on.
  function PostedStep(s: State, tid: TaskId, event: EventId, now: int): Option<State> {
    if tid !in s.tasks || !FreshEvent(s, event) then None
    else
      var task := s.tasks[tid];
      var u := Logged(s, PostOf(task, event));
      match task.phase
      case Acking => Some(AliasThen(u, tid, event, task.root, Registering))
      case SpawnAcking =>
        if task.room in s.agents then Some(SpawnAcked(u, tid, event, s.agents[task.room], now)) else None
      case Warning => Some(AliasFinish(u, tid, event, task.root))
      case Posting(start, left) =>
        Some(AliasThen(u, tid, event, task.root, if left <= 1 then Querying(start) else Posting(start, left - 1)))
      case MirrorAcking => Some(AliasFinish(u, tid, event, task.root))
      case Heading(items) => Some(InPhase(u, tid, Enumerating(items)))
      case Enumerating(items) =>
        if items == [] then None
        else if |items| == 1 then Some(AliasFinish(u, tid, event, items[0].root))
        else Some(AliasThen(u, tid, event, items[0].root, Enumerating(items[1..])))
      case Declining => Some(Finish(u, tid))
      case Noting(left) => Some(if left <= 1 then Finish(u, tid) else InPhase(u, tid, Noting(left - 1)))
      case _ => None
  }

  // The session row is stored before claude is started.
  function SpawnAcked(s: State, tid: TaskId, event: EventId, agent: AgentName, now: int): State
    requires tid in s.tasks
  {
    var task := s.tasks[tid];
    match InsertSession(s.db, task.root, task.room, agent, task.session, now)
    case Err(_) => AbortTask(s, tid)
    case Ok(t) => AliasThen(s.(db := t), tid, event, task.root, SpawnRegistering)
  }

  // _register_session returns; with no registry it does nothing.
  function RegisteredStep(s: State, tid: TaskId): Option<State> {
    if tid !in s.tasks then None
    else match s.tasks[tid].phase
      case Registering => Some(InPhase(s, tid, Waiting))
      case SpawnRegistering => Some(StartTurn(s, tid))
      case Mirroring => Some(InPhase(s, tid, MirrorAcking))
      case _ => None
  }

  // A uuid4 nobody has used, that names no transcript and is not held by another spawn.
  predicate FreshSession(s: State, id: SessionId) {
    && id !in s.transcripts
    && (forall r | r in s.db.sessions :: s.db.sessions[r].id != id)
    && (forall t | t in s.tasks && s.tasks[t].phase.SpawnAcking? :: s.tasks[t].session != id)
  }

  function LastSpawn(lastSpawn: map<RoomId, real>, room: RoomId): real {
    if room in lastSpawn then lastSpawn[room] else 0.0
  }

  function StampsOf(h: History, room: RoomId): seq<real> {
    if room in h.stamps then h.stamps[room] else []
  }

  // The room lock is granted; a spawn goes through the rate limit first.
  function AcquireStep(s: State, tid: TaskId, wall: real, id: SessionId): Option<State> {
    if tid !in s.tasks || !s.tasks[tid].phase.Waiting? || s.tasks[tid].room in s.locks then None
    else
      var task := s.tasks[tid];
      var u := s.(locks := s.locks[task.room := tid]);
      if task.origin != Spawned then Some(StartTurn(u, tid))
      else if wall - LastSpawn(s.lastSpawn, task.room) < RATE_LIMIT_SECONDS then Some(InPhase(u, tid, Declining))
      else if !FreshSession(s, id) then None
      else
        Some(u.(tasks := s.tasks[tid := task.(session := id, phase := SpawnAcking)],
                lastSpawn := s.lastSpawn[task.room := wall],
                h := s.h.(stamps := s.h.stamps[task.room := StampsOf(s.h, task.room) + [wall]])))
  }

  function LaunchedStep(s: State, tid: TaskId, proc: Proc): Option<State> {
    if tid !in s.tasks || !s.tasks[tid].phase.Launching? then None
    else
      Some(InPhase(s, tid, Running(s.tasks[tid].phase.start, proc)).(active := s.active[s.tasks[tid].room := proc]))
  }

  // The finally clause of _run_claude pops the room's entry, whoever's it is.
  function Deregistered(s: State, tid: TaskId): State
    requires tid in s.tasks
  {
    s.(active := s.active - {s.tasks[tid].room})
  }

  function ExitedStep(s: State, tid: TaskId, chunks: nat, now: int): Option<State> {
    if tid !in s.tasks || !s.tasks[tid].phase.Running? || chunks == 0 then None
    else
      var task := s.tasks[tid];
      var t := if task.origin == Spawned then s.db else TouchSession(s.db, task.root, now);
      Some(InPhase(Deregistered(s, tid).(db := t), tid, Posting(task.phase.start, chunks)))
  }

  function TimedOutStep(s: State, tid: TaskId): Option<State> {
    if tid !in s.tasks || !s.tasks[tid].phase.Running? then None
    else Some(InPhase(s, tid, Reaping(s.tasks[tid].phase.proc)))
  }

  function ReapedStep(s: State, tid: TaskId): Option<State> {
    if tid !in s.tasks || !s.tasks[tid].phase.Reaping? then None
    else Some(InPhase(Deregistered(s, tid), tid, Warning))
  }

  // Starting or running claude raises: only the approval path handles that.
  function FailedStep(s: State, tid: TaskId): Option<State> {
    if tid !in s.tasks || !(s.tasks[tid].phase.Launching? || s.tasks[tid].phase.Running?) then None
    else if s.tasks[tid].origin.Approved? then
      Some(InPhase(if s.tasks[tid].phase.Running? then Deregistered(s, tid) else s, tid, Warning))
    else Some(AbortTask(s, tid))
  }

  // An approval find_pending_approval selects.
  predicate Candidate(s: State, agent: AgentName, start: nat, a: ApprovalId) {
    && a in s.approvals
    && s.approvals[a].agent == agent
    && s.approvals[a].state == PendingApproval
    && s.approvals[a].createdAt >= start
  }

  // The newest such approval; None if there is none, or the registry is off or fails.
  predicate QueryAnswer(s: State, agent: AgentName, start: nat, found: Option<ApprovalId>) {
    match found
    case None => true
    case Some(a) =>
      && s.registry
      && Candidate(s, agent, start, a)
      && forall b | b in s.approvals && Candidate(s, agent, start, b) ::
           s.approvals[b].createdAt <= s.approvals[a].createdAt
  }

  ghost function QueryStep(s: State, tid: TaskId, found: Option<ApprovalId>): Option<State> {
    if tid !in s.tasks || !s.tasks[tid].phase.Querying? || s.tasks[tid].room !in s.agents then None
    else
      var start := s.tasks[tid].phase.start;
      if !QueryAnswer(s, s.agents[s.tasks[tid].room], start, found) then None
      else Some(InPhase(s, tid, Queried(start, found)))
  }

  // _record_pending_if_gated after its query.
  function RecordStep(s: State, tid: TaskId, tool: string, now: int): Option<State> {
    if tid !in s.tasks || !s.tasks[tid].phase.Queried? then None
    else
      var task := s.tasks[tid];
      match task.phase.found
      case None => Some(Finish(s, tid))
      case Some(a) =>
        Some(InPhase(s, tid, Linking)
               .(db := InsertPending(s.db, Pending(a, task.root, task.session, task.room, tool, now)),
                 h := s.h.(recorded := s.h.recorded + multiset{a})))
  }

  function LinkedStep(s: State, tid: TaskId): Option<State> {
    if tid !in s.tasks || !s.tasks[tid].phase.Linking? then None else Some(Finish(s, tid))
  }

  // handle_cancel_command looks for a process, and signals it in the same stretch.
  function CancelStep(s: State, tid: TaskId, giveUp: bool): Option<State> {
    if tid !in s.tasks || !s.tasks[tid].phase.Cancelling? then None
    else
      var room := s.tasks[tid].room;
      if room in s.active then
        Some(InPhase(s, tid, Noting(1)).(h := s.h.(signals := s.h.signals + [(room, s.active[room])])))
      else Some(if giveUp then InPhase(s, tid, Noting(1)) else s)
  }

  function AbortStep(s: State, tid: TaskId): Option<State> {
    if tid !in s.tasks || s.tasks[tid].phase.Waiting? then None else Some(AbortTask(s, tid))
  }

  // ----- The reconcile loop -----

  predicate Expired(row: Pending, now: int) {
    now - row.createdAt > PENDING_APPROVAL_EXPIRY_SECONDS
  }

  function Live(rows: seq<Pending>, now: int): seq<Pending> {
    if rows == [] then []
    else (if Expired(rows[0], now) then [] else [rows[0]]) + Live(rows[1..], now)
  }

  function WithoutExpired(pending: map<ApprovalId, Pending>, now: int): map<ApprovalId, Pending> {
    map a | a in pending && !Expired(pending[a], now) :: pending[a]
  }

  // reconcile_once up to its registry query.
  function PassBeginStep(s: State, rows: seq<Pending>, now: int): Option<State> {
    if !s.registry || !s.pass.Resting? || !Listing(rows, s.db.pending) then None
    else
      var live := Live(rows, now);
      Some(s.(db := s.db.(pending := WithoutExpired(s.db.pending, now)),
              pass := if live == [] then Resting else Fetching(live)))
  }

  // get_approval_states: the states as they are, or nothing if the registry fails.
  predicate StatesAnswer(s: State, states: map<ApprovalId, ApprovalState>) {
    forall a | a in states :: a in s.approvals && s.approvals[a].state == states[a]
  }

  function PassFetchedStep(s: State, states: map<ApprovalId, ApprovalState>): Option<State> {
    if !s.pass.Fetching? || !StatesAnswer(s, states) then None
    else Some(s.(pass := Acting(s.pass.todo, states)))
  }

  predicate Decided(row: Pending, states: map<ApprovalId, ApprovalState>, outcome: ApprovalState) {
    row.approval in states && states[row.approval] == outcome
  }

  // _resume_on_approval: the row is claimed before the turn begins.
  function Claim(s: State, row: Pending, rest: seq<Pending>, states: map<ApprovalId, ApprovalState>): State {
    s.(db := DeletePending(s.db, row.approval),
       pass := Resuming(rest, states),
       tasks := s.tasks[RECONCILER := Task(row.room, row.root, row.session, Approved(row.approval), Waiting)])
  }

  // An approved row of a room that is no longer configured.
  function Drop(s: State, row: Pending, rest: seq<Pending>, states: map<ApprovalId, ApprovalState>): State {
    s.(db := DeletePending(s.db, row.approval), pass := Acting(rest, states))
  }

  function Deny(s: State, row: Pending, rest: seq<Pending>, states: map<ApprovalId, ApprovalState>): State {
    s.(db := DeletePending(s.db, row.approval), pass := Denying(row, rest, states))
  }

  // One row of the second loop.
  function PassActStep(s: State): Option<State> {
    if !s.pass.Acting? then None
    else if s.pass.todo == [] then Some(s.(pass := Resting))
    else
      var row, rest, states := s.pass.todo[0], s.pass.todo[1..], s.pass.states;
      if Decided(row, states, ApprovedApproval) then
        if row.room !in s.agents then Some(Drop(s, row, rest, states))
        else if RECONCILER in s.tasks then None
        else Some(Claim(s, row, rest, states))
      else if Decided(row, states, DeniedApproval) then Some(Deny(s, row, rest, states))
      else Some(s.(pass := Acting(rest, states)))
  }

  function DenyPostedStep(s: State, event: EventId): Option<State> {
    if !s.pass.Denying? || !FreshEvent(s, event) then None
    else
      var u := Logged(s, RefusalOf(s.pass.row, event));
      match RegisterAlias(s.db, event, s.pass.row.root)
      case Ok(t) => Some(u.(db := t, pass := Acting(s.pass.todo, s.pass.states)))
      case Err(_) => Some(u.(pass := Resting))
  }

  function PassAbortStep(s: State): Option<State> {
    if s.pass.Denying? || s.pass.Fetching? || s.pass.Acting? then Some(s.(pass := Resting)) else None
  }

  // ----- Restarts and the world outside -----

  // Memory is lost, the tables stay; the configuration may have been edited.
  function CrashStep(s: State, agents: map<RoomId, AgentName>, registry: bool): Option<State> {
    if !OneRoomEach(agents) then None
    else
      Some(s.(agents := agents, registry := registry, locks := map[], active := map[], lastSpawn := map[],
              tasks := map[], pass := Resting, h := s.h.(stamps := map[])))
  }

  // The turn of agent's room that is being watched for approvals.
  predicate WatcherIn(s: State, agent: AgentName, room: RoomId) {
    && room in s.agents && s.agents[room] == agent
    && room in s.locks && s.locks[room] in s.tasks && Watching(s.tasks[s.locks[room]].phase)
  }

  ghost function Watcher(s: State, agent: AgentName): Option<Turn> {
    if room :| WatcherIn(s, agent, room) then Some(TurnOf(s.tasks[s.locks[room]])) else None
  }

  // The turn whose process is running as agent.
  predicate RunnerIn(s: State, agent: AgentName, room: RoomId) {
    WatcherIn(s, agent, room) && s.tasks[s.locks[room]].phase.Running?
  }

  // An approval comes up: own says it was raised by the turn running as that agent.
  ghost function RaiseStep(s: State, a: ApprovalId, agent: AgentName, own: bool): Option<State> {
    if a in s.approvals || (own && !exists room :: RunnerIn(s, agent, room)) then None
    else
      var during := Watcher(s, agent);
      var raised := Approval(agent, s.clock, PendingApproval, if own then during else None, during);
      Some(s.(approvals := s.approvals[a := raised],
              clock := s.clock + 1))
  }

  function SettleStep(s: State, a: ApprovalId, state: ApprovalState): Option<State> {
    if a !in s.approvals || state == PendingApproval then None
    else Some(s.(approvals := s.approvals[a := s.approvals[a].(state := state)]))
  }

  // A transcript appears: of a session of ours that is running, or of one
  // started elsewhere, which never has the id a spawn is about to use.
  function TranscriptStep(s: State, id: SessionId): Option<State> {
    if exists t | t in s.tasks :: s.tasks[t].phase.SpawnAcking? && s.tasks[t].session == id then None
    else Some(s.(transcripts := s.transcripts + {id}))
  }

  ghost function Next(s: State, step: Step): Option<State> {
    match step
    case Dispatch(tid, m) => DispatchStep(s, tid, m)
    case Route(tid, pick, items, posts, now) => RouteStep(s, tid, pick, items, posts, now)
    case Posted(tid, event, now) => PostedStep(s, tid, event, now)
    case Registered(tid) => RegisteredStep(s, tid)
    case Acquire(tid, wall, id) => AcquireStep(s, tid, wall, id)
    case Launched(tid, proc) => LaunchedStep(s, tid, proc)
    case Exited(tid, chunks, now) => ExitedStep(s, tid, chunks, now)
    case TimedOut(tid) => TimedOutStep(s, tid)
    case Reaped(tid) => ReapedStep(s, tid)
    case Failed(tid) => FailedStep(s, tid)
    case Query(tid, found) => QueryStep(s, tid, found)
    case Record(tid, tool, now) => RecordStep(s, tid, tool, now)
    case Linked(tid) => LinkedStep(s, tid)
    case CancelPoll(tid, giveUp) => CancelStep(s, tid, giveUp)
    case Abort(tid) => AbortStep(s, tid)
    case PassBegin(rows, now) => PassBeginStep(s, rows, now)
    case PassFetched(states) => PassFetchedStep(s, states)
    case PassAct => PassActStep(s)
    case DenyPosted(event) => DenyPostedStep(s, event)
    case PassAbort => PassAbortStep(s)
    case Clean(cutoff) => Some(s.(db := Cleanup(s.db, cutoff)))
    case Crash(agents, registry) => CrashStep(s, agents, registry)
    case Raise(a, agent, own) => RaiseStep(s, a, agent, own)
    case Settle(a, state) => SettleStep(s, a, state)
    case Transcript(id) => TranscriptStep(s, id)
  }

  // A run: states[i] becomes states[i+1] by steps[i].
  ghost predicate Run(states: seq<State>, steps: seq<Step>) {
    && |states| == |steps| + 1
    && Init(states[0])
    && forall i | 0 <= i < |steps| :: Next(states[i], steps[i]) == Some(states[i + 1])
  }
}
