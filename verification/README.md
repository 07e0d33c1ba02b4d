# matrix-dispatcher: a verified model

matrix-dispatcher is one asyncio process that turns Matrix messages into runs of
`claude`. A message that replies to nothing spawns a session in its room; a reply
in a thread resumes the thread's session; a tool call that needs an operator's
approval is noted after the turn and the session is resumed once the approval has
landed. This project models that process in Dafny 4.11 and proves what it keeps,
over every interleaving of handlers, reconcile passes, cleanups and restarts.

`dafny verify dfyconfig.toml` checks everything.

## The dispatcher as a state machine

`Dispatcher.dfy` (module `Dispatching`) is the concurrent core. Its state holds the four
SQLite tables, the room locks, the registered processes, the last spawn stamps,
every handler task with the `await` it is suspended at, the reconcile loop's pass,
the approvals in the registry, and a history: the messages dispatched and the event
ids handed out, which keep both fresh, and the posts, launches, records and signals,
on which no step depends. A step runs one task from one `await` to the
next, or is a move of the reconcile or cleanup loop, a restart, or something that
happens outside: an approval is raised or settled, a transcript appears, a message
arrives. `Run` is any finite sequence of such steps from an empty start.

Conventions:

- Code between two `await`s is one atomic step. Every `await` may suspend, and a
  free lock may go to any waiter; asyncio's first-come order is one such choice.
- `turn_start` and an approval's `created_at` are read from one clock that never
  gives the same reading twice. The `now` that goes into tables, and the time the
  rate limit reads, are arbitrary, so both may run backwards.
- An agent has one room (`OneRoomEach`), which is what `Reconcile.BuildRoomToAgent`
  makes of a configuration whose agents have distinct names.
- The homeserver hands out an event id once; a new session id is one that nobody
  uses. A `post_message` may also return no event id.
- An event is handled once. `Polling.DispatchedAtMostOnce` proves that of the poll loop.
- A restart (`Crash`) forgets everything but the tables and may come with an edited
  configuration.

Modules on top of it:

- `Framing`, `Bookkeeping`: which parts of the state each step leaves alone.
- `Locking`: one turn per room at a time; the process table belongs to the lock's owner.
- `Approvals`, `Consent`: an approval is recorded and resumed at most once, for the
  turn that was being watched when it came up, and only after it was approved.
- `RateLimit`, `Sessions`: spawns are spaced; session rows do not collide.
- `Replies`: a reply to any post the dispatcher links to a session finds that session while
  it is kept: acknowledgements, responses, adoptions, items of `!sessions`, denial notes.
- `FailOpen`: a registry that always fails is as good as none.
- `Turns`, `Journeys`: a turn's course from message or approval to its last post, followed
  over runs: one start of claude, in the right thread and session, and the whole output.
- `Requests`: whom a handler listens to, what the commands do, what lies behind each turn.
- `Correlation`: the approval a turn records is the newest that came up since it started.
- `Passes`: what a reconcile pass makes of every row it reads, and why rows leave the table.
- `Retention`: sessions are renewed by use and deleted by cleanup alone.
- `Possible`: the steps of the world outside are held back no more than they have to be, so
  that what is proved of all runs is not proved of too few.

## The other parts

- `Text`, `Chunking`, `Packing`: the paragraph chunker, its loop proved against a
  recursive specification, and what that specification guarantees.
- `Store`, `Databases`: the SQLite statements as functions on tables, and a class
  that updates the tables in place and is proved to do the same.
- `Posting`: `post_message` and `_post_response` over a homeserver client and the database,
  with other tasks at work on the tables at every `await`.
- `Reconcile`: one reconcile pass over the database, statement by statement, with other
  turns and other passes at work at every `await`.
- `Overlap`: any number of reconcile passes interleaved over one table of pending approvals.
- `Polling`: the poll loop, its token, and restarts.
- `Runner`: the process table and the `!cancel` wait.
- `RegistryInit`: concurrent first calls of `get_registry`.
- `Transcripts`: the prompt wrapper and its readers.

## Where the code and its documentation differ

- The docstring of `_resume_on_approval` says that an overlapping reconcile pass cannot
  fire an approval twice (src/matrix_dispatcher/hitl.py:122-123). Deleting the local row
  does not report whether there was one, so a pass that has read it resumes whoever deleted
  it. Over every interleaving, two passes that run to their end both resume an approval if
  and only if both were told that it is approved before it had expired, its room is
  configured, and the later of them read the table before the row was first deleted
  (`Overlap.TwoPassesResumeTwice`); `Overlap.OverlapWitness` is such a run. At-most-once holds
  because `reconcile_loop` awaits one pass at a time: passes that are apart in time resume an
  approval at most once (`Overlap.PassesInTurnResumeOnce`). `Dispatching` has one pass at a time.
- Cleanup is meant to restrict resolution to the sessions it keeps. It does so exactly when no
  stale thread root is also an alias of a surviving thread (`Store.CleanupRefines`); with
  fresh event ids that never arises (`Store.FreshRunIsDisjoint`).
- A spawn's prompt is read back as the message exactly when the agent's name holds no blank
  line (`Transcripts.PromptRoundTrip`); an empty message is read back as the wrapper
  (`Transcripts.EmptyPrompt`).

## Model

| member | source | states |
|---|---|---|
| Text.FindBlankLineIsFirst | src/matrix_dispatcher/matrixio.py:99 | the separator a split stops at is the first blank line, and there is none exactly when the search fails |
| Text.JoinSplit | src/matrix_dispatcher/matrixio.py:99 | joining the paragraphs of a text with blank lines gives the text back |
| Text.LStripDrops | src/matrix_dispatcher/matrixio.py:103 | lstrip("\n") drops exactly the leading newlines |
| Chunking.SplitOnParagraphs | src/matrix_dispatcher/matrixio.py:94-119 | the imperative chunker computes the recursive specification, early exit and fallback included |
| Chunking.AppendPieces | src/matrix_dispatcher/matrixio.py:109-112 | the inner loop appends the consecutive slices of an oversized paragraph |
| Chunking.ChunksAreLossless | src/matrix_dispatcher/matrixio.py:94-119 | chunks are ordered, disjoint slices of the text within the limit, non-empty if the text is, with only newlines between them, so every other character survives |
| Chunking.FittingParagraphsAreNotCut | src/matrix_dispatcher/matrixio.py:102-114 | a paragraph within the limit lies in one chunk, but for newlines in front of it |
| Chunking.ChunkCountBound | src/matrix_dispatcher/matrixio.py:94-119 | count * max_len <= 3 * len(text) + max_len, for every text and limit |
| Packing.GreedyStaysAhead | src/matrix_dispatcher/matrixio.py:102-117 | against any other way to fill chunks the packer is never more than one open chunk behind |
| Packing.GreedyIsOptimal | src/matrix_dispatcher/matrixio.py:102-117 | no split into consecutive paragraph groups that fit has fewer chunks |
| Packing.GreedyIsAGrouping | src/matrix_dispatcher/matrixio.py:102-117 | the chunks are themselves the joins of such a split, so the minimum is reached |
| Store.LookupIsThreads | src/matrix_dispatcher/db.py:117-129 | the two-table lookup is one map from event to thread, the live aliases overridden by the roots; with the foreign key an alias never dangles |
| Store.InsertRefines | src/matrix_dispatcher/db.py:143-157 | inserting a session adds its root to that map, and fails exactly on a root already there |
| Store.AliasRefines | src/matrix_dispatcher/db.py:132-140 | an alias is refused exactly when it is new, non-empty and its session is gone; OR IGNORE does not help then |
| Store.TouchIsNow | src/matrix_dispatcher/db.py:160-165 | after a touch the session was last used now, and all else in the tables is as before |
| Store.TouchRefines | src/matrix_dispatcher/db.py:160-165 | touching a session moves no event |
| Store.DeletesKeepForeignKey | src/matrix_dispatcher/db.py:211-218 | each delete keeps the foreign key; the second fails exactly when the first would have had work to do |
| Store.SweepIsIdle | src/matrix_dispatcher/db.py:219-223 | the defensive sweep removes nothing from a valid state |
| Store.CleanupTables | src/matrix_dispatcher/db.py:205-232 | cleanup leaves exactly the fresh sessions and the aliases of fresh sessions |
| Store.CleanupLookup | src/matrix_dispatcher/db.py:205-232 | what any event resolves to after cleanup |
| Store.CleanupRefines | src/matrix_dispatcher/db.py:205-232 | cleanup restricts the event map to sessions at or after the cutoff, exactly when it unmasks no alias |
| Store.CleanupComposes | src/matrix_dispatcher/db.py:205-232 | cleanup at an earlier and then a later cutoff is cleanup at the later one |
| Store.RetargetExactly | src/matrix_dispatcher/db.py:117-157 | exactly which statements can move an event that resolves to another thread |
| Store.OnlyIntroductionsResolve | src/matrix_dispatcher/db.py:117-157 | an event starts to resolve only by being inserted or aliased |
| Store.FreshRunIsDisjoint | src/matrix_dispatcher/db.py:117-157 | with fresh event ids no event is both a root and an alias, after any run of statements |
| Store.ResolutionIsStable | src/matrix_dispatcher/db.py:117-165 | over any such run an event that has resolved never resolves to a different session |
| Store.ResolutionNeverReturns | src/matrix_dispatcher/db.py:205-232 | and once its session is gone it never resolves again |
| Databases.Database.constructor | src/matrix_dispatcher/db.py:34-75 | the tables start empty and valid |
| Databases.Database.GetSince | src/matrix_dispatcher/db.py:98-100 | the stored token |
| Databases.Database.SetSince | src/matrix_dispatcher/db.py:103-108 | replaces the token and nothing else |
| Databases.Database.GetSessionByEvent | src/matrix_dispatcher/db.py:117-129 | looks among roots first, then aliases, and returns a live row or nothing |
| Databases.Database.RegisterAlias | src/matrix_dispatcher/db.py:132-140 | does what the statement does, its foreign-key error included |
| Databases.Database.InsertSession | src/matrix_dispatcher/db.py:143-157 | does what the statement does, its primary-key error included |
| Databases.Database.TouchSession | src/matrix_dispatcher/db.py:160-165 | sets the time of last use of one row, if there is one, to now, and nothing else |
| Retention.KeptWhileFresh | src/matrix_dispatcher/db.py:205-232 | over any operations that do not renew a session, it is kept, unchanged, if and only if no cleanup has a cutoff later than its last use |
| Retention.TouchedIsKept | src/matrix_dispatcher/db.py:160-165 | a session touched now survives every cleanup with a cutoff up to now and is deleted by any with a later one |
| Retention.InsertedIsKept | src/matrix_dispatcher/db.py:143-157 | so does one inserted now, which has the given room, agent and session id |
| Retention.SessionsAreKept | src/matrix_dispatcher/app.py:234 | in every run a resumed turn's exit sets its session's last use to that time, a cleanup deletes exactly the sessions last used before its cutoff, and no other step, restarts included, changes or deletes a row |
| Databases.Database.InsertPendingApproval | src/matrix_dispatcher/db.py:173-188 | inserts or replaces one row |
| Databases.Database.DeletePendingApproval | src/matrix_dispatcher/db.py:195-197 | deletes one row, if there is one, and does not say whether |
| Databases.Database.GetPendingApprovals | src/matrix_dispatcher/db.py:191-192 | every row exactly once |
| Databases.Database.DeleteAliasesOfStaleSessions | src/matrix_dispatcher/db.py:211-216 | the first delete and its row count |
| Databases.Database.DeleteSessionsBefore | src/matrix_dispatcher/db.py:217-218 | the second delete, its row count and its foreign-key error |
| Databases.Database.DeleteOrphanedAliases | src/matrix_dispatcher/db.py:219-224 | the third delete and its row count |
| Databases.Database.RunCleanup | src/matrix_dispatcher/db.py:205-232 | never fails on valid tables; both counts are exact: before = after + deleted |
| Posting.MatrixClient.PostMessage | src/matrix_dispatcher/matrixio.py:56-71 | sends one message and returns its event id, or "" if it was turned down |
| Posting.PostAndAlias | src/matrix_dispatcher/matrixio.py:180-183 | one turn of the posting loop, with other tasks at work while it sends: one more message out and aliased, or the exact exception |
| Posting.PostResponse | src/matrix_dispatcher/matrixio.py:154-183 | sends the bodies in order and aliases each event, with other tasks at work at each await; stops only at an unreachable homeserver, or at the first alias that is refused because the session has vanished; the tables in each of the three endings; when all is sent, an error message ends with the output in full, and other messages give it back up to newlines |
| Posting.PostedEventsResolve | src/matrix_dispatcher/matrixio.py:179-183 | whatever others do meanwhile, every event that was aliased under a fresh id resolves to its session, the same one, as long as that is kept, and to nothing afterwards |
| Posting.BodiesReproduceOutput | src/matrix_dispatcher/matrixio.py:177-183 | without the first mention the bodies give the output back up to newlines; only the mention can exceed the limit |
| Locking.LockInvStep | src/matrix_dispatcher/runner.py:30-38 | every step keeps lock owners, critical sections and registered processes in agreement |
| Locking.LockInvAlways | src/matrix_dispatcher/runner.py:30-38 | so they agree in every reachable state |
| Locking.MutualExclusion | src/matrix_dispatcher/app.py:212-262 | at most one turn of a room is in its critical section |
| Locking.ActiveProcessIsOwners | src/matrix_dispatcher/runner.py:75-98 | a process is registered exactly while the lock's owner is inside _run_claude, and is that owner's |
| Locking.CancelSignalsTheOwner | src/matrix_dispatcher/runner.py:151-188 | !cancel signals the lock owner's process or nothing |
| Locking.OtherTasksStay | src/matrix_dispatcher/runner.py:75-98 | outside a restart a step moves no task but its own |
| Locking.PopRemovesOwnProcess | src/matrix_dispatcher/runner.py:97-98 | an entry leaves the process table only by a step of the turn it belongs to |
| Approvals.FoundIsNew | src/matrix_dispatcher/registry.py:129-140 | what the query finds since the turn's start was not recorded before |
| Correlation.NewestIsRecorded | src/matrix_dispatcher/registry.py:129-137 | in every run, what a turn records is the newest of the pending approvals of its agent that came up since the turn started claude, as of when it looked; the others are older; the row is about that turn and bears the time of recording |
| Correlation.TimesApartAlways | src/matrix_dispatcher/registry.py:129-137 | no two approvals have the same creation time |
| Correlation.OnlySettlingDecides | src/matrix_dispatcher/registry.py:131-136 | an approval's state changes only by being settled |
| Approvals.SoleWatcher | src/matrix_dispatcher/hitl.py:166 | two turns never look for one agent's approvals at the same time |
| Approvals.ApprovalInvStep | src/matrix_dispatcher/hitl.py:70-101 | every step keeps the approval protocol's invariant |
| Approvals.RecordedAtMostOnce | src/matrix_dispatcher/hitl.py:70-101 | in every run an approval is recorded locally at most once |
| Approvals.ResumedAtMostOnce | src/matrix_dispatcher/hitl.py:112-242 | in every run, restarts included, it causes at most one resume |
| Approvals.ResumedWhereRaised | src/matrix_dispatcher/hitl.py:112-242 | the resume goes to the session, thread and room of the turn being watched when the approval came up, hence to the turn that raised it; its row was claimed before |
| Consent.NoResumeWithoutApproval | src/matrix_dispatcher/hitl.py:276-280 | whenever a session was resumed for an approval, the registry had it as approved before |
| Consent.SettledInTurnIsNeverResumed | src/matrix_dispatcher/hitl.py:81-85 | an approval settled before its turn looks for one is never recorded and never resumed |
| RateLimit.SpawnsAreSpaced | src/matrix_dispatcher/app.py:304-322 | in one process the admitted spawn stamps of a room are ten seconds apart, whatever the clock does |
| RateLimit.SpawnsPerWindow | src/matrix_dispatcher/app.py:304-322 | a window of W seconds holds at most floor(W/10) + 1 of them |
| Sessions.SessionInvStep | src/matrix_dispatcher/app.py:324-340 | every step keeps session rows, reserved ids and pending inserts apart |
| Sessions.SessionIdsAreDistinct | src/matrix_dispatcher/transcripts.py:95-120 | no two tracked rows of a room share a session id |
| Sessions.InsertNeverCollides | src/matrix_dispatcher/db.py:143-157 | insert_session never meets a primary-key conflict, in a spawn or in !mirror |
| Sessions.OnlyRootMessagesStartSessions | src/matrix_dispatcher/app.py:264-298 | every session comes from a trusted message that replies to nothing; a thread reply never spawns |
| Replies.ReplyInvStep | src/matrix_dispatcher/db.py:132-140 | every step keeps posts, aliases, tasks, lists and pending rows bound to the session their thread was opened with |
| Replies.RepliesReachTheirSession | src/matrix_dispatcher/db.py:117-140 | in every reachable state a reply to a post that is linked to a session, `!sessions` items and denial notes included, resolves to exactly that thread and session while the session is kept, and to nothing afterwards |
| Turns.TurnCourse | src/matrix_dispatcher/app.py:193-262 | a step of its own takes a turn from phase to phase as one diagram says, starts claude exactly on entering the launching phase, and posts in its thread exactly what its phase is for |
| Turns.StartsOnce | src/matrix_dispatcher/app.py:184-362 | over any stretch of a run, a turn that lives through it starts claude exactly once, in its own room and thread and with its own session |
| Requests.DispatchedIsRouted | src/matrix_dispatcher/app.py:474-496 | every message dispatched has a handler, which is there to route it until it takes a step or a restart comes |
| Requests.UntrustedIsIgnored | src/matrix_dispatcher/app.py:117-118 | a message that is not from the trusted sender does nothing but end its handler |
| Requests.StrayReplyStartsNothing | src/matrix_dispatcher/app.py:263-296 | a reply that finds no session starts and stores nothing |
| Requests.CommandsAreAnswered | src/matrix_dispatcher/app.py:127-181 | the other commands, and a list or adoption that finds nothing, lead to an answer and touch no table |
| Requests.MirrorAdopts | src/matrix_dispatcher/commands.py:149-166 | !mirror files a transcript the room does not track as a session of the message's own thread, with the room's agent |
| Requests.SessionsAreListed | src/matrix_dispatcher/commands.py:59-87 | !sessions posts a header and then the room's ten last used sessions in that order, each post about that session and its thread |
| Requests.ChoreGoes | src/matrix_dispatcher/commands.py:79-87 | what each step of a listing, adopting, cancelling or answering handler posts, and where it goes next |
| Requests.TurnsAreAsked | src/matrix_dispatcher/app.py:117-208 | behind every start of claude that is not due to an approval there is a trusted message in the same room that began the thread or replied to that session's thread |
| Journeys.ReplyIsResumed | src/matrix_dispatcher/app.py:184-221 | in every run, a trusted reply to a post about a live session is about to be acknowledged for that thread and session right after routing, works for it as long as its handler lives, and starts claude for it exactly once, on getting the room lock, and never before |
| Journeys.RootReplyIsResumed | src/matrix_dispatcher/app.py:184-221 | so is a reply to the message the thread began with |
| Journeys.RepliesAreNotLost | src/matrix_dispatcher/app.py:184-212 | on its way to the room lock a reply goes away only by an exception, a restart, or the deletion of its session before the acknowledgement |
| Journeys.MessageIsSpawned | src/matrix_dispatcher/app.py:298-341 | a trusted message that replies to nothing and is no command waits for its room, and starts claude exactly once, for a session of its own thread, when that is registered |
| Journeys.SpawnIsPrepared | src/matrix_dispatcher/app.py:302-348 | a spawn is admitted exactly when ten seconds have passed since the last of its room, with a new session id, and its row, with the room's agent, is stored before it is registered or started |
| Journeys.ResponseIsPosted | src/matrix_dispatcher/app.py:241-253 | after claude's exit all its chunks are posted in the turn's thread, no more and no fewer, before the turn does anything else |
| Journeys.TroubleIsReported | src/matrix_dispatcher/hitl.py:172-212 | a turn that ran out of time, or a resume that failed, ends with one message in its thread and posts nothing before it |
| Journeys.TurnsEndForAReason | src/matrix_dispatcher/app.py:184-262 | a turn goes away only when it is done, raises, is cut off by a restart, or has no thread left to post to |
| Journeys.TurnsCanGoOn | src/matrix_dispatcher/app.py:212 | every turn has a next step, unless another holds its room's lock, and then that one has |
| Possible.TheNewestMayBeFound | src/matrix_dispatcher/registry.py:129-140 | the query may return an approval if and only if it is the newest pending one of the agent since the turn's start and there is a registry; it may always return none, as when the registry fails |
| Possible.SpawnsMayGetAnyId | src/matrix_dispatcher/app.py:302-325 | an admitted spawn may get a session id if and only if nobody has it |
| Possible.TheListMayBeSent | src/matrix_dispatcher/commands.py:59-62 | the list of !sessions may be any that the statement can return, and no other |
| Possible.AnyTranscriptMayBeAdopted | src/matrix_dispatcher/transcripts.py:95-120 | !mirror may adopt a transcript if and only if the room does not track it |
| Possible.PassesMayBegin | src/matrix_dispatcher/hitl.py:253-257 | with a registry a pass may begin whenever none is on, and reads every row once |
| FailOpen.StepOff | src/matrix_dispatcher/registry.py:106-180 | a step whose registry call fails is matched by the same step, or none, without a registry |
| FailOpen.FailOpenIsAbsence | src/matrix_dispatcher/registry.py:8-14 | for every run in which all registry calls fail there is one with no registry that has the same posts, turns, sessions and aliases |
| Reconcile.BuildRoomToAgent | src/matrix_dispatcher/hitl.py:104-109 | a room goes to the last agent that names it; every room gets one agent and every agent one room |
| Reconcile.Expire | src/matrix_dispatcher/hitl.py:261-272 | the first loop removes exactly the rows older than 600 s by the clock and returns the others |
| Reconcile.PassByTheClock | src/matrix_dispatcher/hitl.py:261-296 | a row read at an age of 601 s or more goes without resume or note; a younger one goes only if reported granted or denied, is acted on only as that says, and is acted on if the pass does not raise |
| Reconcile.ResumeOnApproval | src/matrix_dispatcher/hitl.py:112-166 | the resume begins on the tables without the row, and others' work comes on top of that; the row is dropped unresumed if its room is not configured |
| Reconcile.AnswerDenied | src/matrix_dispatcher/hitl.py:281-295 | the note is sent on the tables without the row, and aliased on what others have made of them by then; exactly when that raises |
| Reconcile.ReconcileOnce | src/matrix_dispatcher/hitl.py:245-296 | however far a pass gets, while other turns work on the tables and other passes delete rows: what it did, and which rows are gone |
| Reconcile.PassIsExact | src/matrix_dispatcher/hitl.py:245-296 | a pass, finished or aborted, acts at most once on a row, and a row acted on is gone |
| Reconcile.FinishedPassPartitions | src/matrix_dispatcher/hitl.py:245-296 | a finished pass partitions its rows into expired, resumed, dropped, answered and untouched |
| Reconcile.PassLeavesRow | src/matrix_dispatcher/hitl.py:245-296 | after any pass, finished or aborted, a row it read is in the table unchanged and was not acted on, or is gone and was acted on at most once, and not at all if it had expired |
| Reconcile.PassActIsAct | src/matrix_dispatcher/hitl.py:276-295 | the state machine's pass takes the same action on a row, and claims it in the same cases, as the pass over the database |
| Passes.ExpiryByTheClock | src/matrix_dispatcher/hitl.py:263-274 | in every run, a pass drops the rows that are 601 s old or more and goes on with all the others |
| Passes.RowsLeaveForAReason | src/matrix_dispatcher/hitl.py:263-282 | a row leaves the table only for being older than 600 s when a pass reads it, or for being reported granted or denied when the pass comes to it; no restart, cleanup or turn removes or changes it |
| Passes.ExpiredIsNeverResumed | src/matrix_dispatcher/hitl.py:263-274 | an approval whose row was older than 600 s when a pass read it is neither resumed nor taken up for a note by that pass or any later one |
| Passes.PassReachesEveryRow | src/matrix_dispatcher/hitl.py:263-296 | a pass that is not cut short comes to every row not older than 600 s, knowing what the registry said of it, and resumes, answers or leaves it accordingly |
| Passes.GrantedIsResumed | src/matrix_dispatcher/hitl.py:153-166 | an approval taken up as granted waits for the row's room, thread and session, and starts claude for them exactly once, on getting the lock |
| Passes.DenialIsNoted | src/matrix_dispatcher/hitl.py:281-295 | a denial is answered with one note in the row's thread, linked to it if the session is still there; if not, the pass ends |
| Overlap.InvAfter | src/matrix_dispatcher/hitl.py:245-296 | every step of any of several passes over one table keeps what each has read, claimed and resumed in order |
| Overlap.PassResumesExactly | src/matrix_dispatcher/hitl.py:112-166 | a pass that ran to its end resumed once for a row that was in the table at its read, had not expired, was reported approved and whose room is configured, and else not at all, whatever other passes did |
| Overlap.TwoPassesResumeTwice | src/matrix_dispatcher/hitl.py:120-127 | over every interleaving two passes that ran to their end both resume an approval if and only if both were told it is approved in time, its room is configured, and the later one read the table before the row was first deleted |
| Overlap.PassesInTurnResumeOnce | src/matrix_dispatcher/hitl.py:316-323 | passes of which one ends before the next reads resume an approval at most once, finished or aborted |
| Overlap.OverlapWitness | src/matrix_dispatcher/hitl.py:120-127 | there is a run of two overlapping passes that resumes one approval twice |
| Polling.Poller.Begin | src/matrix_dispatcher/app.py:427-438 | the loop starts from the stored token, or seeds one |
| Polling.Poller.SeedOnce | src/matrix_dispatcher/app.py:438-445 | stores the priming sync's own token and goes on from it, and dispatches nothing; what is left if the sync or the write fails |
| Polling.BacklogIsSkipped | src/matrix_dispatcher/app.py:438-445 | in every run, a first start stores and goes on from the priming sync's token, and nothing before it is ever dispatched, over any restarts |
| Polling.Poller.SetSince | src/matrix_dispatcher/db.py:103-108 | stores the token, or raises before or after doing so |
| Polling.Poller.DispatchRoom | src/matrix_dispatcher/app.py:469-496 | one handler per text message of a room, in order |
| Polling.Poller.DispatchAll | src/matrix_dispatcher/app.py:461-496 | the configured rooms of a response |
| Polling.Poller.SyncOnce | src/matrix_dispatcher/app.py:449-503 | one turn of the loop is the state machine's Sync step: token first, dispatch after |
| Polling.PollInvStep | src/matrix_dispatcher/app.py:433-503 | every step keeps all that was dispatched before the stored token |
| Polling.DispatchedAtMostOnce | src/matrix_dispatcher/app.py:433-503 | no event is dispatched twice over any restarts, failed syncs and failed writes |
| Polling.CompleteDispatch | src/matrix_dispatcher/app.py:461-496 | a complete response dispatches exactly a room's texts between the tokens |
| Polling.DispatchedExactlyOnce | src/matrix_dispatcher/app.py:449-496 | in one process with complete syncs and successful writes every message after the starting token is dispatched exactly once, in per-room order |
| RegistryInit.AllGetTheSameClient | src/matrix_dispatcher/registry.py:266-299 | all callers that return get one client |
| RegistryInit.PoolIsBuiltOnce | src/matrix_dispatcher/registry.py:266-299 | the pool is built at most once, but for one more attempt per cancelled caller |
| RegistryInit.DsnLeadsToAPool | src/matrix_dispatcher/registry.py:285-298 | the caller with the lock builds a pool if Vault or else the environment has a DSN, and returns a switched-off client otherwise; the client is enabled as the build went |
| RegistryInit.ClientIsAsBuilt | src/matrix_dispatcher/registry.py:285-298 | the client everybody gets is enabled if the step that made it finished the pool, and switched off if that failed or there was no DSN |
| RegistryInit.ClientStays | src/matrix_dispatcher/registry.py:277-284 | the client never changes once it is there |
| Runner.Runtime.AdmitSpawn | src/matrix_dispatcher/app.py:305-322 | a spawn is admitted and stamped exactly when ten seconds have passed since the last one |
| Runner.AcquireAdmits | src/matrix_dispatcher/app.py:304-322 | the state machine's spawn is admitted and stamped in the same cases |
| Runner.Runtime.RunClaude | src/matrix_dispatcher/runner.py:64-109 | on every way out the room's entry is gone, no other is touched, and a process that ran out of time was killed; the output is stdout, or the first 500 characters of stderr if the exit code is not 0 |
| Runner.FindProcess | src/matrix_dispatcher/runner.py:157-169 | the wait returns the first process that appears, or gives up after the configured time, or at once if the lock is free |
| Runner.FindProcessToCancel | src/matrix_dispatcher/runner.py:157-169 | at most twenty waits with the configured times |
| Transcripts.StripIsStripped | src/matrix_dispatcher/transcripts.py:51 | str.strip leaves no white space at either end, and is idempotent |
| Transcripts.PromptRoundTrip | src/matrix_dispatcher/app.py:353-359 | for a non-empty stripped message the readers get the message back from the spawn prompt, exactly when the agent's name has no blank line |
| Transcripts.EmptyPrompt | src/matrix_dispatcher/transcripts.py:82-86 | an empty message comes back as the wrapper |
| Transcripts.ResumeRoundTrip | src/matrix_dispatcher/transcripts.py:82-86 | a resumed session's message comes back unchanged exactly unless it looks like a wrapper with a blank line |
| Transcripts.FindUnmirrored | src/matrix_dispatcher/transcripts.py:95-120 | the first of the newest UUID transcripts the room does not track, and nothing exactly when there is none |

## Left out

- Chunking.SplitOnParagraphs: a limit below 1, for which the source's `range` raises on an oversized paragraph (limit 0) or drops its text (negative limits).
- `handle_event`, `_resume_on_approval` and the command handlers are modelled as atomic steps on values rather than as methods, because what matters about them is how they interleave; their in-place updates of the tables and the process table are in `Databases`, `Posting`, `Reconcile` and `Runner`.
- FailOpen.FailOpenIsAbsence: holds under the convention that every `await` may suspend and that a free lock may go to any waiter; with no registry the source does not suspend at those calls, so which waiter gets a lock next is not compared.
- Reconcile.ReconcileOnce: of approvals that other turns record or other passes delete during the pass it says only that those recorded, not read by the pass and not deleted by another are kept; `Approvals.RecordedAtMostOnce` shows that none of those it has read is recorded again.
- Reconcile.ResumeOnApproval: takes the room lock and the resumed turn as one wait, in which others work; what that turn does is in `Dispatching`.
- Overlap.TwoPassesResumeTwice: leaves a resumed session's turn, its room lock and the aliases of notes to the other modules; they delete no pending row. An approval is recorded once (`Approvals.RecordedAtMostOnce`).
- Replies.RepliesReachTheirSession: does not look at rooms; the source resolves a reply by event id alone, in whichever room it comes.
- Runner.FindProcess: adds up waits as real numbers, where the source adds floats.
- RateLimit.SpawnsAreSpaced: takes stamps as real numbers, where the source has floats; stamps do not outlive a restart.
- Polling: tokens are positions in one append-only stream, as the "Syncing" section of the Matrix Client-Server API lets a client assume; leaving and rejoining rooms is not modelled.
- The routing fields of an event (`extract_thread_root`) and the text of `!help` and `!recap`; a message carries its thread root, its command and whether it is trusted, and the posts of those commands leave no trace in the tables.
- The exact wording of posts, the reply a post is attached to in the state machine, and the one-line summaries of `!sessions`.
- nio, asyncpg, SQLite, Vault and the subprocess layer are contracts: fresh event ids, tables as maps, a turn that exits, runs out of time or raises.
- Shutdown in `main`, the handler set, logging, credentials, configuration files, file permissions and the environment allowlist.
- The migration of version 1 tokens, transcript files and their JSON, and UUID parsing, which is a flag of a transcript file.
- Liveness: posts and lock waits have no bound in the source; `Journeys.TurnsCanGoOn` says that there is always a next step.
