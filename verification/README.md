# k41 agent runtime: a verified model

This project models the concurrency protocols and the message-history algebra of the k41 agent runtime in
Dafny 4.11 and proves what they promise. `dafny verify dfyconfig.toml` checks all of it.

Code without an `await` is one atomic step. Everything outside the program is arbitrary: the browser driver
and the summariser are functions that may fail, the token counter is any function of a history, the message
trimmer proposes whatever it likes, the order of sets, the choice of the next coroutine, time and
cancellation are left open, and the database keeps whole rows or none.

| file | part of the system |
|---|---|
| `Messages.dfy`, `Compaction.dfy` | which histories are legal, where they may be cut, and the budget loop that replaces a prefix by a summary |
| `Checkpoints.dfy`, `Forkable.dfy`, `Forking.dfy`, `ForkTitles.dfy` | paths, message sources and edit branches of the checkpoint tree; answers to fork from; seeding and naming a fork |
| `ModelContext.dfy` | what a run does to its history before a model call: compaction inside the run, channel trimming |
| `ActiveSessions.dfy`, `ThreadProtocol.dfy` | the session registry, and the transition system of runs, injections, forks and compactions that go through it |
| `AsyncLocks.dfy`, `LockTable.dfy` | one event-loop lock with its queue, and the table of locks that are made and dropped on the fly |
| `BrowserModel.dfy` | the browser service as a transition system: any number of coroutines, one step for each await-to-await segment, early ends at every step, and a crash step that clears the memory and keeps the database |
| `BrowserLocks.dfy`, `BrowserSessions.dfy`, `BrowserJournal.dfy`, `BrowserDeletion.dfy` | its locks, its sessions and profiles, its journal of actions, and the deletion of conversations, each as an invariant of every run |
| `BrowserGuards.dfy`, `BrowserResults.dfy` | what operations have checked stays so; which result a call gets |
| `BrowserServes.dfy` | that every kind of request can be served from any quiet state |
| `BrowserProgress.dfy`, `BrowserRestart.dfy` | that somebody always has an enabled step; a reachable state in which a deleted call has started again |
| `BrowserRepository.dfy` | the repository's tables, as it overwrites them row by row |
| `StreamLog.dfy` | the replayable event log, its subscribers and its manager |
| `ThreadIds.dfy`, `Migration.dfy` | conversation ids, and their migration |
| `BackgroundTasks.dfy` | attempts and retries, bounded history, bounded event queues |
| `Ordering.dfy`, `Prelude.dfy` | string order, stable sorting, small shared functions |

The main results, hardest first:

- **The browser service never deadlocks**: in every reachable state somebody has an enabled step. It runs each
  journaled action at most once across crashes and replays and with the arguments recorded first, records and
  returns the driver's result and no other, never opens a login profile twice, and drains a conversation before
  it deletes it; and from every quiet state it can serve every kind of request. All of this holds over all runs with crashes, timeouts and cancellations; the journal relies on the drain, and
  everything on mutual exclusion.
- **Conservation of histories**: in every interleaving every message written to a thread is accounted for. A
  compaction under its reservation replaces exactly what it summarised. A run that writes back its own history
  erases exactly what it had not read, all of it written after the read, and no other step erases anything unread.
- **Compaction**: which cuts split no tool group, exactly, and a budget loop whose result fits and whose legality
  is decided by the first message it retains.
- **The scanner is a grammar**: it accepts exactly the concatenations of whole blocks, from which the safe
  cuts, the cut search and the legality of forks follow.
- **Seeded forks stay editable**: four functions of three files, composed.
- **The migration is a simultaneous renaming**, in any order of its loops, and idempotent; along every path of a
  payload it changes the names of migrated threads and nothing else.
- **Late stream subscribers see everything once**, and everybody who is not stopped gets to the end; **background
  tasks** are bounded in attempts, events and history, and end as their last attempt did.

Some promises fail on some inputs. Each has a concrete witness and the exact condition under which it holds:

- A compaction looks the start of the trimmer's proposal up by its id. On a legal history the cut it finds is
  safe if and only if the message found there, the first with that id, is not a tool result
  (`DuplicateIdsCanSplitAToolGroup`, `StartingCutSafeIff`, `CompactMessageHistory`); the lookup finds the right
  message if and only if no earlier one has that id (`TrimmedCutIffFirst`).
- An injection during a run can be lost (`InjectionCanBeLost`): its reservation excludes compactions and forks but
  not runs. It can be lost later if and only if, when it is made, some run of the thread holds a view, that is, has
  read the history and not yet written it back (`InjectionLostIffViewed`); so never when the thread has no run. A
  write-back loses nothing if and only if the history then holds nothing that the run had not read
  (`ReplaceLosesLateArrivals`).
- A fork's import keeps a history if and only if its ids are distinct (`DuplicateIdsMerge`, `SeedForkHistory`).
  The reducer itself never makes two messages share an id (`ReducerKeepsUnique`), so a history with a repeated
  one comes only from a store that was written in another way.
- A call can start again once its conversation was deleted, and only then (`StartsAgainAfterDeletion`,
  `StartsAgainOnlyAfterDeletion`, `StartsAtMostOnceEver`).
- A payload ends up without legacy identities if and only if it had none or mentions a prefix of this run
  (`EarlierRootIsSkipped`, `PayloadCleanIff`).
- A handoff's response is its result once it is recorded (`RecordsItsResult`, `ResultForGood`), but not before: if
  the operation ends otherwise the row goes on waiting (`AbortLeavesOpen`), and any response can still be recorded
  (`HandedOffIsOpen`). For an action nothing but the driver's result can be recorded (`ActionGetsItsResult`).
- A restored task has a completion time except for a final or unknown status without one
  (`RestoredWithoutCompletion`, `RestoredCompletion`).

A deletion's `Commit` is the point at which calls forget their past; `LifeOf` counts the deletions of a call's
conversation, and the statements about the journal speak of one such life. `started`, `answers` and `deletions`
in the browser model and the ledgers (`written`, `summarised`, `restarted`, `shed`, `lost`) in the thread
protocol only observe.

Where documentation and code differ the code is modelled. The docstring of the migration limits it to known
or inferred prefixes; the inference covers every root with an underscore that is not canonical, so the list
of known platforms has no say in which roots are taken up (`MatchesLegacy`). The comment on a compaction's second read expects
messages to have arrived meanwhile; for all clients of the registry that cannot happen (`CheckAlwaysPasses`).

## Model

| member | source | states |
|---|---|---|
| `Messages.IsValidMessageSequence` | agent/modules/conversations/compaction.py:288-320 | The loop over open call ids accepts exactly the histories that the recursive reading `Legal` accepts. |
| `Messages.ScanConcat` | agent/modules/conversations/compaction.py:302-320 | Scanning a concatenation is scanning its parts one after the other. |
| `Messages.ToolRunCloses` | agent/modules/conversations/compaction.py:313-317 | A run of tool results closes the open calls exactly when its call ids are a permutation of them, none empty. |
| `Messages.LegalIffBlocks` | agent/modules/conversations/compaction.py:288-320 | A history is accepted if and only if it is a non-empty concatenation of blocks: a call-free non-tool message, or an assistant message with calls followed by one result for each distinct call id, in any order. |
| `Messages.SplitUnique` | agent/modules/conversations/compaction.py:288-320 | The decomposition into blocks is unique. |
| `Messages.CutHalves` | agent/modules/conversations/compaction.py:336-340 | Of a legal history, a suffix is legal exactly when the prefix in front of it is. |
| `Messages.SafeCutIffNotTool` | agent/modules/conversations/compaction.py:336-340 | Equivalently, a legal history is cut safely exactly where the first retained message is not a tool result. |
| `Messages.SafeCutIffBoundary` | agent/modules/conversations/compaction.py:336-340 | The safe cut indices of a legal history are exactly its interior block boundaries. |
| `Messages.SafeCutExists` | agent/modules/conversations/compaction.py:336-344 | A legal history has a safe cut if and only if it has more than one block. |
| `Compaction.ClosestMeets` | agent/modules/conversations/compaction.py:354-357 | The fallback choice is at least as close to the target as every safe cut, and the earliest among equally close ones. |
| `Compaction.ResolveCutoffMeets` | agent/modules/conversations/compaction.py:330-357 | The search fails exactly on fewer than three messages or when no safe cut exists, each with its own error; every cut returned is the one that the stated order of preference describes. |
| `Compaction.PreferredUnique` | agent/modules/conversations/compaction.py:346-357 | The order of preference singles out one cut. |
| `Compaction.PreferredMeans` | agent/modules/conversations/compaction.py:346-357 | In full: the cut leaves a legal history; if any cut leaves one with a user message first it does, and is the earliest that keeps no more than asked for, else the last; otherwise it is the closest to keeping that many. |
| `Compaction.CutoffFailsOnlyOnOneBlock` | agent/modules/conversations/compaction.py:323-357 | On a legal history of three or more messages the search fails only when there is a single block; otherwise the cut is an interior block boundary and both halves are legal. |
| `Compaction.TrimmedCutIffFirst` | agent/modules/conversations/compaction.py:425-433 | The lookup by id finds the start of the trimmer's suffix if and only if no message in front of it carries the id of its first message. |
| `Compaction.TrimmedCutIff` | agent/modules/conversations/compaction.py:425-433 | The lookup finds index i exactly when the proposal is proper and legal, has an id in front, and i is the first message with that id, and not the first of all. |
| `Compaction.UniqueIdsTrimSound` | agent/modules/conversations/compaction.py:416-424 | That is so on every history with unique ids. |
| `Compaction.StartingCutSafeIff` | agent/modules/conversations/compaction.py:414-439 | On a legal history the starting cut is safe if and only if the message that the lookup finds, the first with the id of the trimmer's first message, is not a tool result. |
| `Compaction.DuplicateIdsCanSplitAToolGroup` | agent/modules/conversations/compaction.py:425-433 | Otherwise it need not be: a concrete legal history with a repeated id whose starting cut splits a tool group. |
| `Compaction.InjectLegal` | agent/modules/conversations/compaction.py:444-447 | The injected history is legal exactly when the retained suffix is. |
| `Compaction.InjectShape` | agent/modules/conversations/compaction.py:271-285 | The injected history starts with a user message that is marked as a summary and holds its text, then an acknowledgement unless an assistant message follows, then exactly the retained messages. |
| `Compaction.SummaryLimitMeets` | agent/modules/conversations/compaction.py:465-470 | The limit of attempt k is the largest number that fits, 2^k times over, into 2048 and into what the budget leaves beside the retained messages. |
| `Compaction.InputBudgetMeets` | agent/modules/conversations/compaction.py:448-448 | The budget is the caller's or one less than the history's own size, whichever is smaller. |
| `Compaction.PlanFromMeets` | agent/modules/conversations/compaction.py:449-459 | Without a budget the starting cut is tried; else the first candidate that leaves the reserve, a third of the budget between 1 and 1024, or if none does the one that retains least. |
| `Compaction.NextRequest` | agent/modules/conversations/compaction.py:475-481 | Between two requests: the summary was too long at its cut, and the next cut is the first later candidate at which it would have fitted, or the same one. |
| `Compaction.NextCut` | agent/modules/conversations/compaction.py:478-481 | After a summary that was too long: the first later candidate that it would fit, else the same cut; never an earlier one. |
| `Compaction.FirstCut` | agent/modules/conversations/compaction.py:455-459 | The first candidate that leaves the reserve for a summary if there is one, else the smallest, the earliest among equally small ones. |
| `Compaction.CandidateCuts` | agent/modules/conversations/compaction.py:450-454 | The candidates are the starting cut and every later safe cut, in increasing order. |
| `Compaction.Summarise` | agent/modules/conversations/compaction.py:461-482 | At most three summaries, each of exactly the prefix in front of its cut and with a positive limit, each cut the one due after the earlier summaries, which were all too long; success returns the last summary in front of exactly what it omits, within the budget and legal; each failure says what was in the way. |
| `Compaction.CompactMessageHistory` | agent/modules/conversations/compaction.py:399-482 | The outcome is an error before the first request exactly in the stated cases, otherwise that of the budget loop; under a budget the result is within it and strictly smaller than the original; compacted plus kept is everything. Without the trimmer and a budget the cut is the one preferred for the number of messages that the caller asked for, else for the default, and at least two are summarised. Of a legal history the result is legal if and only if the first retained message is not a tool result; of any history it is legal when the trimmer's first id is not used earlier. |
| `ModelContext.TrimChannelHistory` | agent/modules/workflows/history_trim.py:10-38 | Everything is kept when it fits and starts with a user message; else what the trimmer keeps when that is legal; else the last legal tail from a user message, else from an assistant message, else everything. |
| `ModelContext.TrimKeepsLegal` | agent/modules/workflows/history_trim.py:22-38 | Trimming keeps a suffix when the trimmer does; it keeps a legal history legal, and makes one legal that has any legal tail, unless that fits already. |
| `ModelContext.TrimKeepsLastTurn` | agent/modules/workflows/history_trim.py:22-38 | When the trimmer's proposal is not legal the shortest legal tail is kept that starts with a user message, or when there is none with an assistant message. |
| `ModelContext.CompactWhenDue` | agent/modules/workflows/model_context.py:107-121 | A compaction is made exactly when the target is reached, and its result is taken exactly when it succeeded, is smaller than the history, and is within the target. |
| `ModelContext.PrepareModelContext` | agent/modules/workflows/model_context.py:90-138 | The history is compacted when due and then trimmed when due; the call is refused exactly when what is left still does not fit, and else gets exactly that, which is written back exactly when something was compacted or trimmed. It is a suffix of the history or of what a compaction made of it, and legal when that is. |
| `ThreadProtocol.RunKeeps` | agent/modules/conversations/compaction.py:502-634 | Every reachable state of runs, injections, forks and compactions has exact reference counts, exclusive reservations, compaction snapshots equal to the current history, and balanced ledgers: every message ever written to a thread is in its history, was summarised, was dropped by an edit, was dropped by a run from what it had read, or was erased by a run that had not read it. |
| `ThreadProtocol.CompactionLosesNothing` | agent/modules/conversations/compaction.py:590-625 | A reserved compaction writes over exactly the history that it read, keeps the suffix that it did not summarise, and erases nothing but what it summarised. |
| `ThreadProtocol.ReplaceLosesLateArrivals` | agent/modules/workflows/nodes/llm.py:151-177 | What a run erases by writing back its history is contained in what was written to the thread after the run had read it; it erases nothing if and only if the history holds nothing that the run had not read. |
| `ThreadProtocol.ReplaceLosesAppended` | agent/modules/workflows/nodes/llm.py:151-177 | When the thread only grew meanwhile, exactly what it grew by is erased, so nothing if and only if it did not grow. |
| `ThreadProtocol.ReplaceShedsPrefix` | agent/modules/workflows/history_trim.py:10-38 | A run that writes back a suffix of what it had read drops exactly the prefix in front of it. |
| `ThreadProtocol.OnlyReplacingLoses` | agent/modules/workflows/model_context.py:111-134 | No other step of the model ever erases a message that it did not read. |
| `ThreadProtocol.WrittenWithoutViewsStays` | agent/modules/workflows/model_context.py:111-134 | Over every run: no copy of a message that a thread has been given by a time at which no run of it holds a view is ever lost; what is lost later was written later. |
| `ThreadProtocol.InjectionCanBeLost` | agent/modules/conversations/service.py:398-410 | A run of six states that loses an injection: a run reads, a pair is injected, and the run writes its history back. |
| `ThreadProtocol.InjectionLostIffViewed` | agent/modules/conversations/service.py:398-410 | After any run that ends with the injection of a pair of new messages, each of the two can still be lost, in some continuation, if and only if a run of the thread holds a view when the pair is injected. |
| `ThreadProtocol.CompactionKeepsLegal` | agent/modules/conversations/compaction.py:590-625 | The write of a reserved compaction keeps a legal history legal if and only if the first message it retains is not a tool result, and so whenever its starting cut was safe. |
| `ThreadProtocol.PairKeepsLegal` | agent/modules/conversations/service.py:400-410 | An injected pair keeps a legal history legal. |
| `ThreadProtocol.IdleThreadStaysLegal` | agent/modules/conversations/compaction.py:502-634 | Over any stretch of any run in which a thread has no run of its own and its compactions start at safe cuts, its history stays legal. |
| `ThreadProtocol.CheckAlwaysPasses` | agent/modules/conversations/compaction.py:590-599 | While its reservation is held, the second read of a compaction always finds the history unchanged. |
| `ThreadProtocol.CheckStopsStale` | agent/modules/conversations/compaction.py:590-599 | On any other history than the one it read a compaction does not go on. |
| `ThreadProtocol.CompactionGetsThrough` | agent/modules/conversations/compaction.py:502-634 | On an idle thread without a reservation a compaction gets through with any plan that it can produce, and changes nothing else. |
| `ThreadProtocol.WriterExcludes` | agent/modules/agent_runtime/active_sessions.py:100-114 | A client that may write to a thread and a compaction of that thread never coexist. |
| `ThreadProtocol.LastReleaseRemoves` | agent/modules/agent_runtime/active_sessions.py:234-241 | A session is unregistered exactly when its last user releases it, and no other session is touched. |
| `ThreadProtocol.IdleStaysIdle` | agent/modules/agent_runtime/active_sessions.py:100-114 | Across every step during which an idle-required reservation is held, its thread has no session, and none can be acquired. |
| `ActiveSessions.ActiveSessionRegistry.FindSession` | agent/modules/agent_runtime/active_sessions.py:103-104 | The search finds a session of the thread if and only if there is one. |
| `ActiveSessions.ActiveSessionRegistry.ReserveThreadMutation` | agent/modules/agent_runtime/active_sessions.py:100-105 | A reservation is refused without a change when the thread is reserved or not idle as required, else recorded. |
| `ActiveSessions.ActiveSessionRegistry.EndReservation` | agent/modules/agent_runtime/active_sessions.py:106-110 | Leaving discards the reservation of the thread, and no other. |
| `ActiveSessions.ActiveSessionRegistry.Acquire` | agent/modules/agent_runtime/active_sessions.py:214-232 | Refused while the thread is reserved; else the session of the thread is reused with its count raised, or a new initializing one registered with count one; no other session changes. |
| `ActiveSessions.ActiveSessionRegistry.Unregister` | agent/modules/agent_runtime/active_sessions.py:203-212 | The session leaves all three dictionaries. |
| `ActiveSessions.ActiveSessionRegistry.Release` | agent/modules/agent_runtime/active_sessions.py:234-241 | The count goes down, and the last reference takes the session and its task out, and no other. |
| `ActiveSessions.ActiveSessionRegistry.AddToolCall` | agent/modules/agent_runtime/active_sessions.py:308-320 | The most recent twenty tool names are kept, in order, and nothing else changes. |
| `Forkable.ForkableMessageIndices` | agent/modules/conversations/history.py:525-548 | An index is returned exactly when its message is a non-blank, non-summary assistant message without tool calls and the next user, assistant or tool message is a user message or absent. |
| `Forkable.CutKeepsForkable` | agent/modules/conversations/forking.py:217-233 | Cutting a history after a forkable answer leaves the forkable indices up to it unchanged. |
| `Forkable.ForkPrefixLegal` | agent/modules/conversations/forking.py:217-233 | Of a legal history the prefix up to a forkable answer is legal, so the check after the cut never rejects it. |
| `Checkpoints.ById` | agent/modules/conversations/history.py:424-428 | The loop builds the dictionary in which the last listed checkpoint with an id wins. |
| `Checkpoints.CheckpointPathToActive` | agent/modules/conversations/history.py:420-440 | On every graph, even a cyclic one, the walk ends; the path has no repeats, adjacent entries are parent-linked, it ends at the active checkpoint, and it stops only where the parent is missing or already on it. |
| `Checkpoints.PathUnique` | agent/modules/conversations/history.py:420-440 | Those conditions determine the path. |
| `Checkpoints.MessageSourceByIndex` | agent/modules/conversations/history.py:443-463 | Each message is attributed to the earliest checkpoint of the path that holds the history up to and including it, and a message no checkpoint holds to none. |
| `Checkpoints.SignatureTells` | agent/modules/conversations/history.py:373-379 | Two messages have the same signature exactly when their type, id, answered call and text are the same. |
| `Checkpoints.HoldsMeans` | agent/modules/conversations/history.py:382-383 | So a checkpoint holds a message exactly when it has the same messages, in this sense, up to and including it. |
| `Checkpoints.SourcesMonotone` | agent/modules/conversations/history.py:443-463 | Sources are monotone: every earlier message has a source too, at a checkpoint no later on the path. |
| `Checkpoints.LeavesMeet` | agent/modules/conversations/history.py:404-417 | The leaves are exactly the non-empty checkpoints with an id that no other one names as its parent, by time and then by id. |
| `Checkpoints.BranchOptions` | agent/modules/conversations/history.py:476-500 | The options partition the leaves that share the prefix by the signature of their prompt, each showing its newest leaf, in the order in which the signatures first appear. |
| `Checkpoints.PartitionCounts` | agent/modules/conversations/history.py:500-521 | The number of options is the number of distinct signatures. |
| `Checkpoints.CurrentOption` | agent/modules/conversations/history.py:504-515 | The index shown leads to the leaf of the active signature when that signature is among the options, and is the first otherwise. |
| `Checkpoints.CurrentIsActive` | agent/modules/conversations/history.py:504-515 | With distinct leaf ids the index shown is the position of the active signature itself. |
| `Checkpoints.BranchMetadataByIndex` | agent/modules/conversations/history.py:466-522 | Exactly the prompts with two or more alternatives get a branch, with the options in their order, the total, and the current position described above, which is one when the active signature is not offered. |
| `Checkpoints.BranchesAreEdits` | agent/modules/conversations/history.py:466-522 | In terms of messages alone: a prompt has a branch exactly when two leaves continue the history in front of it with prompts that differ in id or text; it has two options or more, and each shows the text of such a prompt and leads to the newest leaf with it. |
| `Forking.SeedForkHistory` | agent/modules/conversations/forking.py:163-181 | Seeding takes any history: a chain of checkpoints that ends with what the message reducer makes of it, which is the history itself if and only if its ids are distinct; each prompt is imported by a batch of its own. |
| `Forking.SeedPath` | agent/modules/conversations/history.py:420-440 | The path to the head of a seeded fork is the whole chain. |
| `Forking.SeededPromptSource` | agent/modules/conversations/history.py:443-463 | Every prompt of a seeded fork of a history with distinct ids is attributed to the checkpoint that adds exactly it. |
| `Forking.EditRestarts` | agent/modules/agent_runtime/runner.py:995-1016 | The edit of such a prompt is accepted, and restarts from a checkpoint that holds exactly the history in front of it. |
| `Forking.FindMessageSourceMeets` | agent/modules/agent_runtime/runner.py:995-1016 | The lookup for an edit fails for an unknown checkpoint, an index outside, a message that is not the user's, or a first checkpoint, each exactly then, and else returns the message and the parent of the newest listed checkpoint with that id. |
| `Forking.SeededForkIsEditable` | agent/modules/conversations/forking.py:163-181 | Seeding, walking the path, attributing and looking the source up, one after the other: every prompt of every fork of a history with distinct ids, as every history that the reducer made is, can be edited from the right point. |
| `Forking.ReducerKeepsIffUnique` | agent/modules/conversations/forking.py:163-181 | The message reducer keeps a history if and only if its ids are distinct. |
| `Forking.AddMessageMeets` | agent/modules/conversations/forking.py:163-181 | The reducer puts a message in the place of the first one with its id, or at the end. |
| `Forking.AddMessagesCompose` | agent/modules/conversations/forking.py:163-181 | Importing batches one after the other is importing them at once. |
| `Forking.ReducerKeepsUnique` | agent/modules/conversations/forking.py:163-181 | The reducer never makes two messages share an id. |
| `Forking.SeededIdsUnique` | agent/modules/conversations/forking.py:163-181 | No checkpoint of a fork holds two messages with one id, whatever was imported. |
| `Forking.DuplicateIdsMerge` | agent/modules/conversations/forking.py:163-181 | A history of two messages with one id, of which the import keeps the second. |
| `ForkTitles.ValueDecimal` | agent/modules/conversations/forking.py:71-71 | Reading a written number gives the number back. |
| `ForkTitles.ParseTitle` | agent/modules/conversations/forking.py:52-52 | A match splits the title into a base without line breaks and a number of at least two without leading zeros. |
| `ForkTitles.ParseComplete` | agent/modules/conversations/forking.py:52-52 | Every title of that form is matched, with exactly that base and number. |
| `ForkTitles.NumbersAForkMeans` | agent/modules/conversations/forking.py:52-52 | A fork number is a number from two on without leading zeros. |
| `ForkTitles.SuffixDetermines` | agent/modules/conversations/forking.py:69-74 | Titles that end in different numbers are different, whatever their bases. |
| `ForkTitles.CandidatesDiffer` | agent/modules/conversations/forking.py:69-74 | Different numbers give different candidates, although the base is cut and stripped. |
| `ForkTitles.FirstFree` | agent/modules/conversations/forking.py:69-74 | The loop stops at the first number whose candidate is free, after at most one try more than there are titles. |
| `ForkTitles.OriginMeets` | agent/modules/conversations/forking.py:61-64 | Numbering starts from the stripped title, or the default one: from its base and number when it has a fork number, else from itself and one. |
| `ForkTitles.FamilyNumberMeets` | agent/modules/conversations/forking.py:65-68 | A title is related exactly when it is the base, cut to the room that its own suffix leaves, and a fork number. |
| `ForkTitles.CandidateMeets` | agent/modules/conversations/forking.py:70-72 | A candidate is as much of the base as fits, without trailing white space, and the number in brackets. |
| `ForkTitles.CandidateLength` | agent/modules/conversations/forking.py:71-72 | A candidate has at most 255 characters if and only if its suffix has. |
| `ForkTitles.NextForkTitle` | agent/modules/conversations/forking.py:59-74 | The result is not in the list, its number exceeds that of the title and of every existing title whose base it matches, every number passed over was taken, and it has at most 255 characters exactly when its suffix has. |
| `AsyncLocks.AsyncLock.Acquire` | agent/modules/browser/service.py:297-297 | The fast path takes a free lock unless somebody live is queued, else the coroutine queues up. |
| `AsyncLocks.AsyncLock.Resume` | agent/modules/browser/service.py:297-297 | A woken coroutine takes the lock, which nobody owns then. |
| `AsyncLocks.AsyncLock.Unwind` | agent/modules/browser/service.py:297-299 | A cancelled waiter leaves the queue, and passes a free lock on to the next one. |
| `AsyncLocks.AsyncLock.Release` | agent/modules/browser/service.py:297-299 | Leaving frees the lock and wakes the first waiter. |
| `AsyncLocks.UnwindKeeps` | agent/modules/browser/service.py:294-303 | A cancelled waiter, even one that was woken already, leaves the queue proper and the owner alone. |
| `AsyncLocks.QueueIsFair` | agent/modules/browser/service.py:294-299 | Coroutines queue up at the end and keep their order, and only the first is ever woken: first come, first served, but for cancelled ones. |
| `AsyncLocks.NoLostWakeup` | agent/modules/browser/service.py:291-303 | Whenever the lock is free and somebody waits, the first waiter is about to take it or to wake the next one. |
| `LockTable.RunKeeps` | agent/modules/browser/service.py:291-303 | In every run with entries, exits and cancelled waiters, a key is in the table exactly when its count of holders and waiters is positive, that count is exact, all users of a key share one lock object that no other key uses, and at most one is inside the scope. |
| `LockTable.MutualExclusion` | agent/modules/browser/service.py:291-303 | Two coroutines inside the scope of one key are one. |
| `LockTable.SomeWaiterRuns` | agent/modules/browser/service.py:291-303 | A key whose scope is empty but whose count is positive has a waiter that can run at once. |
| `LockTable.EveryoneMayEnter` | agent/modules/browser/service.py:291-297 | Anybody may come to any key, is inside at once when nobody uses it, and waits while somebody is inside. |
| `LockTable.EveryoneMayLeave` | agent/modules/browser/service.py:297-303 | Whoever is inside may leave, and whoever waits may be cancelled and give up; either way it is gone. |
| `BrowserLocks.RunLocksOk` | agent/modules/browser/service.py:291-312 | In every reachable state of the browser service no lock has two holders, and every operation's program counter fits its own kind. |
| `BrowserLocks.LockOrder` | agent/modules/browser/service.py:95-126 | Whatever an operation waits for ranks above everything that it holds: deletion locks, thread locks in string order, invocation locks, profile locks, the closing tasks of a deletion, session locks. |
| `BrowserLocks.WaitingGoesUp` | agent/modules/browser/service.py:253-283 | If a waits for b and b waits too, b waits at a higher rank, so the wait-for graph is acyclic. |
| `BrowserLocks.NoDeadlock` | agent/modules/browser/service.py:180-211 | From every operation a chain of waits leads to one that does not wait, or whose lock is free. |
| `BrowserLocks.RunNeverDeadlocks` | agent/modules/browser/service.py:319-345 | So in every reachable state, for any number of concurrent operations. |
| `BrowserProgress.CanProceedSteps` | agent/modules/browser/service.py:319-345 | An operation that does not wait, or whose lock is free, has an enabled step: it is granted its lock, or works on. |
| `BrowserProgress.SomebodySteps` | agent/modules/browser/service.py:319-345 | In every reachable state every operation's chain of waits ends at one with an enabled step, and that step is one of the system. |
| `BrowserSessions.RunSessionsOk` | agent/modules/browser/service.py:95-126 | In every reachable state, registered sessions and their objects agree, every session not closed is the registered one of its thread, and what each operation has checked still holds where it relies on it. |
| `BrowserSessions.ProfileExclusive` | agent/modules/browser/service.py:107-111 | Two conversations never have the same profile open, and a named profile in use has not been deleted. |
| `BrowserSessions.LaunchOverwritesNothing` | agent/modules/browser/service.py:98-123 | A launch registers its session for a thread that has none and a profile that nobody uses, although it awaits between check and registration. |
| `BrowserSessions.DeletedProfileUnused` | agent/modules/browser/service.py:191-197 | A named profile is deleted only while no session and no launch uses it. |
| `BrowserSessions.ActionsOnOwnOpenSession` | agent/modules/browser/service.py:342-375 | An agent action runs only on the registered session of its own thread, not closed and not under human control, for as long as it runs. |
| `BrowserSessions.PlanEntitled` | agent/modules/browser/service.py:213-229 | Every segment that registers, closes, hands over or unregisters a session, or deletes a profile, holds the lock that protects it and has found what it needs. |
| `BrowserSessions.MoveKeepsShape` | agent/modules/browser/service.py:319-375 | What one operation has established stays true through every step of another that shares no lock with it. |
| `BrowserGuards.ClosedMeansClosed` | agent/modules/browser/service.py:204-211 | In every reachable state a close that is about to be recorded has left its conversation without a session. |
| `BrowserGuards.CloseLeavesNothing` | agent/modules/browser/service.py:199-211 | A request to close or release a session that ends by its own step leaves none. |
| `BrowserGuards.NoLaunchWhileHandoffWaits` | agent/modules/browser/service.py:103-104 | No session is ever launched for a conversation while one of its handoffs waits. |
| `BrowserGuards.OfferedToHuman` | agent/modules/browser/service.py:424-436 | A session is in human hands before its handoff is recorded. |
| `BrowserGuards.LaunchOpensBoundProfile` | agent/modules/browser/service.py:95-126 | A launch opens the profile that its conversation is bound to, or when it is bound to none its private one, or a named one that was unbound meanwhile. |
| `BrowserGuards.SelectBinds` | agent/modules/browser/service.py:180-190 | A selection binds exactly the profile asked for, which exists, or none while there is no session, and changes no other binding. |
| `BrowserGuards.DeletedProfileUnbound` | agent/modules/browser/service.py:191-197 | The deletion of a profile unbinds it everywhere and touches no other binding. |
| `BrowserGuards.TicketForOpenSession` | agent/modules/browser/service.py:527-535 | A viewer's ticket is for the open session of the conversation it was asked for. |
| `BrowserGuards.MarksEndWithDeletions` | agent/modules/browser/service.py:253-283 | In every reachable state each deletion mark belongs to a deletion that is under way. |
| `BrowserServes.EnsureServes` | agent/modules/browser/service.py:95-126 | From every quiet state: a conversation whose profile is free and that has no waiting handoff gets a session with that profile. |
| `BrowserServes.ActionServes` | agent/modules/browser/service.py:319-376 | An action on an open session runs once and is completed with whatever the driver returns. |
| `BrowserServes.TimeoutCloses` | agent/modules/browser/service.py:364-367 | An action that times out or is cancelled has its session closed, and its row goes on to say running. |
| `BrowserServes.CloseServes` | agent/modules/browser/service.py:199-211 | A session is closed on request. |
| `BrowserServes.CloseActionServes` | agent/modules/browser/service.py:336-341 | The agent's close is journaled, closes the session, and is completed as closed. |
| `BrowserServes.ReleaseServes` | agent/modules/browser/service.py:587-591 | A release closes the session, even under a deletion mark or during shutdown. |
| `BrowserServes.ReapServes` | agent/modules/browser/service.py:551-569 | An idle session can be reaped. |
| `BrowserServes.TicketServes` | agent/modules/browser/service.py:520-535 | A viewer gets a ticket for an open session. |
| `BrowserServes.HandoffOffers` | agent/modules/browser/service.py:424-436 | A handoff gives an open session to the user and waits with a row that says so. |
| `BrowserServes.HandoffReturns` | agent/modules/browser/service.py:451-490 | A waiting handoff is completed with the user's response, and the session is the agent's again. |
| `BrowserServes.HandoffCancels` | agent/modules/browser/service.py:459-467 | One that the user cancels is completed too, and its session is closed. |
| `BrowserServes.HandoffExpires` | agent/modules/browser/service.py:571-576 | One that is due expires when somebody looks: its row is completed as expired and its session closed. |
| `BrowserServes.SelectServes` | agent/modules/browser/service.py:180-190 | A conversation without a session can select any existing profile. |
| `BrowserServes.UnselectServes` | agent/modules/browser/service.py:180-190 | Or none. |
| `BrowserServes.DeleteProfileServes` | agent/modules/browser/service.py:191-197 | A profile that no session has open can be deleted. |
| `BrowserServes.ShutdownAdmitsNobody` | agent/modules/browser/service.py:305-312 | When the service shuts down only releases come in. |
| `BrowserServes.ClosedIsNotUsed` | agent/modules/browser/service.py:99-104 | A session that is being closed is not used, and no other one is opened meanwhile. |
| `BrowserServes.CallsNeedIds` | agent/modules/browser/service.py:327-328 | An action or a handoff without a call id ends at its lookup. |
| `BrowserServes.UnrecordedHandoffGivesBack` | agent/modules/browser/service.py:434-442 | A handoff that could not be recorded gives the session back to the agent. |
| `BrowserServes.CancelledDisposal` | agent/modules/browser/service.py:213-229 | A disposal that is cancelled has unregistered its session, or goes on by itself, or leaves it registered and closed. |
| `BrowserServes.FinishingServes` | agent/modules/browser/service.py:213-229 | What goes on by itself unregisters the session. |
| `BrowserJournal.RunJournalOk` | agent/modules/browser/service.py:319-376 | In every reachable state what has started is journaled as running or completed, every answer is the recorded result, and each operation is right about its own row. |
| `BrowserJournal.StartsAtMostOnce` | agent/modules/browser/service.py:329-352 | Over every run with crashes, timeouts, cancellations and replays, the driver starts each call at most once until its conversation is deleted, and the journal shows it as running or completed. |
| `BrowserJournal.StartsAtMostOnceEver` | agent/modules/browser/service.py:329-352 | A call starts at most once ever as long as no deletion covers its conversation, whatever else is deleted. |
| `BrowserJournal.StartsAgainOnlyAfterDeletion` | agent/modules/browser/service.py:329-352 | A call that has started in two lives had its conversation deleted. |
| `BrowserJournal.AnswersAgree` | agent/modules/browser/service.py:333-334 | All results returned for a call are one result, the recorded one. |
| `BrowserResults.RecordsItsResult` | agent/modules/browser/service.py:375-376 | An operation that holds a result, the driver's, that of a close, or the user's response, records exactly this result with its own arguments by its next step, and returns it. |
| `BrowserResults.ResultForGood` | agent/modules/browser/service.py:333-334 | From then on, until the conversation is deleted, it is the call's recorded result and every answer. |
| `BrowserResults.ActionGetsItsResult` | agent/modules/browser/service.py:342-376 | What an action holds as its result is the only one its call can ever get in this life, even if the operation ends before recording it: the row is completed with it or says running, and no answer is another one. |
| `BrowserResults.DriverDecides` | agent/modules/browser/service.py:353-376 | So when the driver returns a value the call has this value as its result, or none, for good. |
| `BrowserResults.AbortLeavesOpen` | agent/modules/browser/service.py:451-490 | A handoff that ends before its response is recorded leaves its row waiting. |
| `BrowserResults.HandedOffIsOpen` | agent/modules/browser/service.py:411-424 | And while a row waits for the user, from every state with such a row some continuation records any given response. |
| `BrowserJournal.StartsWithRecordedArguments` | agent/modules/browser/service.py:346-352 | What starts has a row that says running, with the fingerprint of its own arguments. |
| `BrowserJournal.ReplayNeverRuns` | agent/modules/browser/service.py:329-335 | From the first row of a call until its conversation is deleted, every later replay ends without effect when its arguments have changed or its outcome is unknown, and otherwise returns the recorded result. |
| `BrowserJournal.HandoffReplayNeverOffers` | agent/modules/browser/service.py:411-424 | The same for the handoff's own lookup: with changed arguments it ends; a completed one returns the recorded result; one that waits for the user goes back to waiting on the same session, or returns the answer that the row has got since; none ever offers the session again. |
| `BrowserJournal.RunAges` | agent/modules/browser/repository.py:85-94 | Until a deletion covers its conversation a row stays, with its arguments, and with its status until it is completed, and then with its result; eras never go back. |
| `BrowserJournal.DeletionForgets` | agent/modules/browser/repository.py:152-156 | The commit of a deletion takes a call's row and begins a new life without starts exactly when it covers the call's thread. |
| `BrowserRestart.StartsAgainAfterDeletion` | agent/modules/browser/service.py:253-283 | And then it does start again: for every call a state is reachable in which it has started twice, once before and once after the deletion of its conversation. |
| `BrowserJournal.MoveKeepsOther` | agent/modules/browser/service.py:319-345 | What an operation knows of its row survives the steps of every other one: rows of a thread are written inside its scope and deleted only once that is drained. |
| `BrowserRepository.Repository.Record` | agent/modules/browser/repository.py:85-94 | A new row takes the fingerprint; an existing one keeps it and changes its status and result only; every other row stays. |
| `BrowserRepository.Repository.PendingHandoff` | agent/modules/browser/repository.py:107-112 | The newest row of the thread that waits for the user, none exactly when there is none. |
| `BrowserRepository.Repository.ExpireHandoffs` | agent/modules/browser/repository.py:119-135 | Exactly the pending handoffs of the thread that are due become completed as expired, with their arguments, and are returned; every other row stays. |
| `BrowserRepository.Repository.DeleteThread` | agent/modules/browser/repository.py:152-156 | Exactly the journal rows, bindings and images of the thread and its sub-threads go, in all three tables; the order of the rest is kept. |
| `BrowserDeletion.RunDeletionOk` | agent/modules/browser/service.py:253-283 | In every reachable state each running deletion keeps its mark, knows every covered thread in use, has a closing task for every covered session while it gathers, and has emptied what its stage says. |
| `BrowserDeletion.DeletionDrains` | agent/modules/browser/service.py:263-266 | Once a deletion holds its locks, no operation is inside the scope of its thread or of a sub-thread, whichever had started before the mark. |
| `BrowserDeletion.NothingEnters` | agent/modules/browser/service.py:305-312 | From the mark to the end of the deletion an operation that reaches a covered scope is turned away. |
| `BrowserDeletion.DeletionEmpties` | agent/modules/browser/service.py:266-281 | After its disposals no session and no viewer ticket of its conversation or of a sub-thread exists, and after its commit no row and no binding, until it ends. |
| `BrowserDeletion.MatchesMeans` | agent/modules/browser/service.py:240-241 | A deletion covers its conversation and its sub-threads, and no other. |
| `BrowserDeletion.DeletionTouchesOnlyCovered` | agent/modules/browser/service.py:253-283 | It touches no ticket, row, binding or session of a conversation that it does not cover. |
| `BrowserDeletion.PlanLawful` | agent/modules/browser/service.py:305-312 | Every segment that changes a thread's own data is inside its scope, and every deletion goes through its stages in order. |
| `StreamLog.RecordsOfAppend` | agent/modules/agent_runtime/chat_stream_manager.py:126-134 | The records of a log with complete lines, followed by more text, are its own records followed by those of the text. |
| `StreamLog.RecordsAreTheLog` | agent/modules/agent_runtime/chat_stream_manager.py:126-134 | The records put together are the log. |
| `StreamLog.ReadTakesNext` | agent/modules/agent_runtime/chat_stream_manager.py:147-151 | A read behind the end takes exactly the next record and leaves the cursor on a record boundary. |
| `StreamLog.StepGives` | agent/modules/agent_runtime/chat_stream_manager.py:136-160 | A subscriber starts at the beginning with nothing received; only its own reads give it anything or move its cursor; a push wakes everybody. |
| `StreamLog.NobodyIsStuck` | agent/modules/agent_runtime/chat_stream_manager.py:136-165 | Whoever reads, waits or leaves always can, a wait at the latest by its timeout; anybody may join. |
| `StreamLog.SubscriberSeesPrefix` | agent/modules/agent_runtime/chat_stream_manager.py:136-160 | In every interleaving what a subscriber has received is a prefix of the records, in order and without repeats, and its cursor is where they end. |
| `StreamLog.LateJoinersMissNothing` | agent/modules/agent_runtime/chat_stream_manager.py:146-156 | A subscriber that ended because the run was done has received the whole log for good, however late it joined. |
| `StreamLog.DoneMovesOn` | agent/modules/agent_runtime/chat_stream_manager.py:146-156 | Once the run is done each step of a subscriber that has not ended brings it nearer to its end, which is a complete one, and it always has such a step. |
| `StreamLog.DoneSubscribersEnd` | agent/modules/agent_runtime/chat_stream_manager.py:146-160 | Over every run: a subscriber that is not stopped ends complete after a bounded number of its own steps, whatever others do. |
| `StreamLog.LogOpenForSubscribers` | agent/modules/agent_runtime/chat_stream_manager.py:161-171 | The log is open while anybody is subscribed, and a subscriber that waits behind the end has a wake-up pending. |
| `StreamLog.ClosedWhenUnused` | agent/modules/agent_runtime/chat_stream_manager.py:161-171 | The file is closed exactly when the session is closed and nobody is subscribed. |
| `StreamLog.ChatStreamSession.PushEvent` | agent/modules/agent_runtime/chat_stream_manager.py:126-134 | Pushing appends one record and wakes every subscriber. |
| `StreamLog.ChatStreamSession.ReadLine` | agent/modules/agent_runtime/chat_stream_manager.py:147-154 | The locked segment of the reading loop returns the next line, the cursor behind it, and whether the run is done. |
| `StreamLog.ChatStreamSession.Unsubscribe` | agent/modules/agent_runtime/chat_stream_manager.py:161-165 | The last subscriber of a closed session closes the file. |
| `StreamLog.ChatStreamSession.CloseLog` | agent/modules/agent_runtime/chat_stream_manager.py:167-171 | Closing closes the file only when nobody is subscribed. |
| `StreamLog.ChatStreamManager.CreateSession` | agent/modules/agent_runtime/chat_stream_manager.py:195-206 | A new session replaces the entry of its thread, and no other; a predecessor that is not done is cancelled and marked as superseded, one that is done is left alone, and neither's log changes. |
| `StreamLog.ChatStreamManager.RemoveSession` | agent/modules/agent_runtime/chat_stream_manager.py:213-229 | A session's cleanup removes the entry of its thread only if that is the session itself, so it never removes its successor, and closes its own log in either case. |
| `ThreadIds.CutOfJoin` | agent/shared/thread_ids.py:31-32 | A root without a colon and a suffix, joined and partitioned, come back. |
| `ThreadIds.CutIsFirst` | agent/shared/thread_ids.py:31-32 | An id is partitioned at its first separator. |
| `ThreadIds.CanonicalMeans` | agent/modules/conversations/migrations.py:48-49 | Canonical roots are 32 lower-case hexadecimal digits. |
| `ThreadIds.ResolveIdempotent` | agent/shared/thread_ids.py:29-32 | Resolving twice is resolving once. |
| `ThreadIds.StorageUndoesResolve` | agent/shared/thread_ids.py:35-39 | On a migrated root the storage lookup undoes resolution. |
| `ThreadIds.ResolveUndoesStorage` | agent/shared/thread_ids.py:35-39 | On the canonical id of a migrated root resolution undoes the storage lookup if and only if the stored id is partitioned between the legacy root and the suffix. |
| `ThreadIds.PlainRootsComeBack` | agent/shared/thread_ids.py:35-39 | Which is so for every legacy root without a colon. |
| `ThreadIds.ResolveInjective` | agent/shared/thread_ids.py:29-32 | Two ids resolve alike exactly when their suffixes agree and their roots resolve alike; two migrated ones only when they are equal. |
| `Migration.InferPrefixes` | agent/modules/conversations/migrations.py:116-126 | The prefixes are the known platforms, the stored ones, and those of all legacy roots among the references. |
| `Migration.MatchesLegacy` | agent/modules/conversations/migrations.py:127-132 | With these prefixes a root is taken up exactly when it has an underscore and is not canonical. |
| `Migration.BuildAliases` | agent/modules/conversations/migrations.py:123-134 | Every legacy root among the references gets its hash as alias, and the aliases that exist stay. |
| `Migration.RenameRowStep` | agent/modules/conversations/migrations.py:143-153 | Renaming one more id in a row, after others, is renaming them all at once; the titles too. |
| `Migration.ConversationDatabase.RenameEverywhere` | agent/modules/conversations/migrations.py:148-153 | One id is renamed in every table. |
| `Migration.ConversationDatabase.RenameAll` | agent/modules/conversations/migrations.py:143-153 | The update loops, over the ids in any order, are one simultaneous substitution. |
| `Migration.ConversationDatabase.MigrateConversationIds` | agent/modules/conversations/migrations.py:100-183 | The whole migration: the alias table grows by exactly the missing legacy roots, all tables are substituted at once, every payload that passes the text filter is rewritten, unless no reference has an alias; a second run would do nothing to aliases and tables. |
| `Migration.EveryReferenceResolved` | agent/modules/conversations/migrations.py:143-153 | Every thread column of every row holds the resolution of what it held, with the same suffix. |
| `Migration.NoLegacyRootLeft` | agent/modules/conversations/migrations.py:48-58 | No root with an underscore is left in the thread columns. |
| `Migration.ReferencesStayApart` | agent/modules/conversations/migrations.py:143-153 | Two references are equal afterwards exactly when they were equal before, or one of them was the canonical form of the other already. |
| `Migration.SecondRunIdle` | agent/modules/conversations/migrations.py:93-96 | On what any sound migration leaves, a second run adds no alias and changes no table. |
| `Migration.TitleFollows` | agent/modules/conversations/migrations.py:152-153 | A conversation whose title repeats its id has the new id as title; no other title changes, except to the new id of its row. |
| `Migration.RewriteCleans` | agent/modules/conversations/migrations.py:155-165 | After rewriting no identity field of a payload, at any depth, has a root with an alias. |
| `Migration.RewriteChangesLegacyOnly` | agent/modules/conversations/migrations.py:180-182 | Rewriting leaves a payload unchanged exactly when it holds no legacy identity, so rewriting again changes nothing. |
| `Migration.RewriteRenames` | agent/modules/conversations/migrations.py:155-165 | Along every path of a payload: objects keep their keys and lists their length; a text under the key thread_id or root_thread_id whose root has an alias gets the alias and keeps its suffix; every other leaf is unchanged. |
| `Migration.ConversationDatabase.RewritePayloads` | agent/modules/conversations/migrations.py:167-182 | Each payload column is rewritten as described, empty ones, those without a known prefix and those that are not JSON staying as they are. |
| `Migration.PayloadCleanIff` | agent/modules/conversations/migrations.py:172-182 | A payload holds no legacy identity afterwards if and only if it held none before or its text mentions a prefix of this run. |
| `Migration.PayloadRewritten` | agent/modules/conversations/migrations.py:167-182 | A payload that mentions a prefix reads as its rewriting afterwards; one that does not, that is no JSON, or that is clean keeps its text. |
| `Migration.MentionsMeans` | agent/modules/conversations/migrations.py:173-174 | The filter lets a text through exactly when a prefix and its underscore stand somewhere in it. |
| `Migration.MigratedRootIsMentioned` | agent/modules/conversations/migrations.py:172-175 | Every payload that spells out a root taken up by this run passes the filter. |
| `Migration.EarlierRootIsSkipped` | agent/modules/conversations/migrations.py:172-175 | One that names only a root aliased by an earlier run, with a prefix this run does not know, is skipped: a concrete payload. |
| `BackgroundTasks.LifeIsBounded` | agent/modules/agent_runtime/background_tasks.py:416-564 | Whatever fails, times out or is cancelled: at most one attempt more than the retries, at most one done event and only for a final status, a completion time exactly when the status is final, and a bounded number of steps. |
| `BackgroundTasks.TerminalForever` | agent/modules/agent_runtime/background_tasks.py:454-483 | A final status and its completion time are never left. |
| `BackgroundTasks.OutcomeDecides` | agent/modules/agent_runtime/background_tasks.py:444-531 | A task is completed exactly when an attempt succeeded, cancelled exactly when one was interrupted, and failed exactly when one timed out or raised with no retries left, each at the time of that step. |
| `BackgroundTasks.CountersCount` | agent/modules/agent_runtime/background_tasks.py:456-469 | Attempts, failed attempts and done events are counted exactly. |
| `BackgroundTasks.StartTimes` | agent/modules/agent_runtime/background_tasks.py:423-424 | The start time is that of the attempt begun last, and a pending task has none. |
| `BackgroundTasks.AttemptsAreMade` | agent/modules/agent_runtime/background_tasks.py:444-564 | The bound is reached: after any number of failures up to its retries a task makes one more attempt and can end in any way. |
| `BackgroundTasks.StepsRunOut` | agent/modules/agent_runtime/background_tasks.py:456-469 | Every step decreases a measure made of the remaining attempts and the phase. |
| `BackgroundTasks.BackgroundTask.SettleAttempt` | agent/modules/agent_runtime/background_tasks.py:444-531 | Success completes the task, an interruption cancels it, a timeout or an error asks for a retry exactly when retries are left, and else fails it; a final status gets its time. |
| `BackgroundTasks.BackgroundTask.EndAttempt` | agent/modules/agent_runtime/background_tasks.py:554-563 | The next attempt starts exactly when this one was to be retried. |
| `BackgroundTasks.RestoredCompletion` | agent/modules/agent_runtime/background_tasks.py:211-219 | A restored task keeps a final status with its time; a pending or running one has failed now; an unknown status counts as failed; there is a completion time exactly when the restart interrupted the task or its record has one. |
| `BackgroundTasks.RestoredWithoutCompletion` | agent/modules/agent_runtime/background_tasks.py:230-235 | A record with an unknown status and no time becomes a failed task without completion time. |
| `BackgroundTasks.TrimKeepsNewest` | agent/modules/agent_runtime/background_tasks.py:759-771 | Trimming keeps every pending and running task and the hundred newest finished ones: each evicted one finished before each kept one, a missing time counting as zero, or at the same time and was added earlier. The rest keep their order. |
| `BackgroundTasks.TrimBounds` | agent/modules/agent_runtime/background_tasks.py:759-771 | At most a hundred finished tasks are left. |
| `BackgroundTasks.BackgroundTaskManager.TrimCompleted` | agent/modules/agent_runtime/background_tasks.py:759-771 | Popping the oldest one by one gives that result. |
| `BackgroundTasks.BackgroundTaskManager.Submit` | agent/modules/agent_runtime/background_tasks.py:392-394 | A submitted task is pending, comes last, and survives the trim that follows. |
| `BackgroundTasks.ReadRecords` | agent/modules/agent_runtime/background_tasks.py:208-222 | Exactly the stored tasks that are not in memory are restored, each from its last record. |
| `BackgroundTasks.BackgroundTaskManager.Restore` | agent/modules/agent_runtime/background_tasks.py:202-225 | The restored tasks are added to those in memory, replace none of them, and are trimmed with them; all are final, and no pending or running task is lost. |
| `BackgroundTasks.EventQueue.Put` | agent/modules/agent_runtime/background_tasks.py:782-800 | After every publication the queue holds the newest events not yet delivered, in order, up to its bound. |
| `BackgroundTasks.EventQueue.Get` | agent/modules/agent_runtime/background_tasks.py:686-691 | What is delivered is the oldest event held, later than everything delivered before, and skips only what fell out of the bound. |
| `BackgroundTasks.BackgroundTaskManager.PublishEvent` | agent/modules/agent_runtime/background_tasks.py:782-800 | Every subscriber of the thread is given the event, nobody when the thread is empty. |
| `Ordering.SortIsStable` | agent/modules/agent_runtime/background_tasks.py:768-768 | Sorting by completion time keeps the order of equal times. |
| `Ordering.BeforeTotal` | agent/modules/browser/service.py:264-264 | The order in which a deletion takes its thread locks is total. |
| `Ordering.BeforeIsLexicographic` | agent/modules/conversations/history.py:404-417 | It is lexicographic by code points. |

## Left out

- Compaction.CompactMessageHistory: the two ids of a summary pair are drawn once instead of for every attempt, so the counter is taken not to depend on them.
- Compaction.ResolveCutoffMeets: an assistant message's call without an id, which the scanner skips, is not a call of the model; an empty call id is.
- Compaction.TrimmedCutIff: the trimmer's result is any list, whatever number of messages it was asked to keep.
- Checkpoints.SignatureTells: the text of a message is the part that the comparison key is made of; attachments are left out.
- ThreadProtocol.RunKeeps: the check for pending interrupts and pending writes is left to the choice whether a compaction goes on; sessions registered through `register` instead of `acquire` do not occur; a run writes back any history, and which of its messages the graph library merges or drops is left to that choice.
- ThreadProtocol.ReplaceLosesLateArrivals: tells messages apart by their contents; a message with the same id and contents as one that the run had read counts as read.
- ThreadProtocol.OnlyReplacingLoses: is about the stored history, onto which `RunAppends` appends. The graph library keeps a running graph's messages in memory; a run that writes them back is one that holds a view from its start, and its writes are `RunReplaces` of what it read and its own messages.
- ModelContext.PrepareModelContext: the assembly of prompts, tools and skills, the budgets, and the flag that channel trimming has been done in this run, which is the choice whether there is a threshold.
- ActiveSessions.ActiveSessionRegistry.Release: is one step, as on one event loop; between OS threads the two lock acquisitions of the source could be separated.
- ActiveSessions: listeners, subprocess ids and broadcasts.
- Checkpoints: how ids, parents, times and texts are extracted from stored tuples; a missing one is the empty string.
- Forking.SeedForkHistory: the other state channels, and the checkpoints written to clear scheduled work, which hold the same messages as their parents.
- Forking: usage records, workspace copies, storage references and cloud copies of a fork.
- ForkTitles.NextForkTitle: `int` and the digits are ASCII, and characters are code points.
- AsyncLocks.AsyncLock.Acquire: the lock of the standard library, as its documentation and the service's use of it promise; which woken coroutine the event loop runs first is open.
- LockTable.RunKeeps: lock objects are handles on values instead of instances, because the table creates and drops them while coroutines still refer to them.
- BrowserLocks.RunNeverDeadlocks: the service is modelled on values, as a transition system over all its coroutines, instead of as a class; a lock is granted to any waiter when nobody holds it, which the lock table proves of the real one.
- BrowserSessions.RunSessionsOk: owners of bindings and profiles are left out, so a refusal for another account is an early end; so are tab observers, images, files, and what a viewer may do with a consumed ticket, which only leaves the table.
- BrowserSessions.ProfileExclusive: private profile directories are named by their thread, so the hash that names them is taken to be injective and never to equal the id of a named profile.
- BrowserJournal.StartsAtMostOnce: counts calls of the driver's `run` by the journal's key, thread and call id, whose hash is taken to be injective, as is the fingerprint of the arguments; what the driver does after a start is outside.
- BrowserJournal.RunAges: the wording and the payload of a handoff are left out: a row of one carries the session that it is about, and the choice of an expired handoff is open.
- BrowserServes.EnsureServes: the service can serve a request when nothing else is under way; how long it takes, and fairness among requests, are left out.
- BrowserDeletion.DeletionEmpties: the removal of image files and directories, and rows of images.
- BrowserDeletion.RunDeletionOk: the failure of one closing task is delivered to its deletion at once, and a deletion that failed only ends.
- StreamLog.SubscriberSeesPrefix: events are encoded lines; encoding, decoding and the spill to disk are left out.
- StreamLog.ChatStreamManager.RemoveSession: is always given the session, as its only caller does; the grace period is the choice when a run's cleanup comes.
- Migration.ConversationDatabase.MigrateConversationIds: asks that the hash is canonical and injective on the roots that occur; missing tables and columns are empty ones, the platform table's values are an arbitrary set, and reading and writing JSON are functions.
- BackgroundTasks.LifeIsBounded: says nothing of progress: a cancellation that lands before an attempt's `try` or in its cleanup leaves the task pending or running for good.
- BackgroundTasks.BackgroundTaskManager.Restore: the writes of interrupted tasks to the database.
- BackgroundTasks: notifications, hooks and the removal of a task.
- Installers, channels, HTTP routes, providers, the rest of the workflows, the frame pacing of viewers and the handoff wording are not part of this model.
