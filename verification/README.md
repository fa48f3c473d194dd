# A model of Hector's runtime core

This project models the parts of Hector that have to survive crashes and interleavings, and proves
what they keep:

- **The persistent reaction bus** (`pkg/waffle`): a durable outbox. `Record` stores an event and one
  pending reaction per handler in one transaction; a poller lists, claims and queues pending reactions;
  workers run handlers and mark the outcome; a crash drops everything but the two tables, and `Start`
  puts running rows back to pending. `ReactionTables` holds the statements as functions of the tables,
  `ReactionProtocol` the bus as a state machine with one step per statement that another goroutine can
  observe, `ReactionRuns` how its runs are put together, and `Ownership`, `Orderly`, `Outcomes`, `Ledger`,
  `WakeUp`, `Shutdown`, `DrainPass`, `DrainAlone` and `Overlap` the properties of its runs. `ReactionStore` and
  `Dispatcher` are the store and the dispatcher as classes, written statement by statement as the code is,
  with any number of steps of the other goroutines between two statements; each method is proved to be a
  run of the state machine. What becomes of a statement is not the method's choice: the store holds a
  script of answers (given, or lost in an error that may hide an update) and a record of what was sent, and
  methods say which statements they send and what they conclude from which answer. `DispatcherRuns` has the
  vocabulary for that: the company a dispatcher is in (anybody; nobody who inserts or resets rows; nobody at
  all, with nothing failing) and the verdicts of `enqueue` with their reasons.
- **The in-memory bus** (`MemoryBus`): the read lock, the jobs channel, the wait group and `Shutdown`.
- **The agent transcript** (`Transcript`, `SessionStore`, `Repair`, `AgentTurn`, `TurnContent`,
  `AgentLoop`, `AnthropicMapping`): `AgentTurn.Turn` says what one turn sends and stores for every behaviour of the
  model and the tools and every point where it stops, `TurnContent` what that means field by field,
  `AgentLoop` has the loop and the processor as methods over the session store, `Repair` the repair of
  unanswered tool calls, `AnthropicMapping` the provider's regrouping of tool results.
- **Hybrid search** (`MemoryStore`, `Fusion`, `FtsQuery`): the upkeep of the two indexes, the search over
  them, reciprocal rank fusion over reals, and the full-text query printer with a parser for what it prints.
- **Migrations** (`MigrationProtocol`, `MigrationOutcome`, `Migrations`, `Spaces`): the runner as a class,
  and any number of runs on one database, each of which may fail or be killed at any statement; what a run
  alone makes of every script of failures.
- **The supervisor** (`Supervisor`, `ShutdownErrors`): the goroutine of `Run`, one goroutine per module,
  contexts and signals, in every interleaving; and the error maps of a shutdown.

A run is a list of steps that are all enabled (`Feasible`), and `Exec` is where it leads, so a lemma
over `steps` is a statement about every interleaving. Failures, cancellations and crashes are steps, and
for methods they are what a parameter, a script of answers or another goroutine has in store for them.

`dafny verify dfyconfig.toml` checks the whole project.

## What the proofs say about the code

- **A `Drain` call that overlaps `Start`.** `Drain` works on a bus that is not started. A call that holds
  a claim when `Start` resets the running rows finds its row pending again. "A claimed reaction's row is
  running until its mark" holds through a run exactly when no reset falls into an open claim
  (`Orderly.ClaimedRowsRunExactlyWhenOrderly`). What the process can do after its reset is decided by
  where the claim stands: a goroutine that has not entered its select yet will find the channel that
  `Start` makes, and one that waits in it waits on the nil channel it read and can only be cancelled
  (`Overlap.ParkedOnNilOnlyCancels`). So a reset keeps every later status change legal, and every handler
  called at most once per reaction, if and only if no claim is on its way to the select
  (`Overlap.ResetKeepsLedgerIff`, `Overlap.ResetKeepsOnceIff`); in all other cases the failing run is
  given (`Overlap.OverlapAllowsIllegalMove`, `Overlap.OverlapAllowsSecondCall`, and a concrete one in
  `Overlap.CalledTwiceWhenStartOvertakesDrain`). A crash clears the matter: only the current process
  counts. Single ownership, "terminal is final", the pending count, the ledger's completeness and the
  wake-up need no such condition.
- **The loop of `drainPending`.** Its end is not a matter of course, as it lists again whenever it queued
  something. While nothing is inserted or reset it lists at most once more than reactions are pending,
  whatever the other goroutines do (`DrainPass.PassesAreBounded`), and the method's own loop is proved to
  end with that variant (`Dispatcher.Dispatcher.DrainPending`). With nobody else at work and nothing
  failing it does its whole job, provided that fewer than a page of reactions lack a handler
  (`DrainAlone.DrainsEverything`).
- **The turn slice.** Cutting the stored transcript at the announced offset, as the memory module does,
  gives the turn exactly when the session was empty, or the turn had an incoming message, or said
  something, or something was recorded after it (`AgentTurn.SliceIsTurnIff`); a silent turn without input
  yields the whole transcript instead (`AgentTurn.SilentTurnShowsEverything`).
- **Repair and storage order.** What the store holds after a repair equals what the model is shown exactly
  when only the last message has unanswered calls (`Repair.StoredIsShownIffOnlyLastOpen`); every
  transcript a stopped turn leaves behind is of that kind.
- **Pairing.** A repaired transcript maps to a conversation in which each tool use is answered by the next
  message exactly when no call is answered away from the tool run behind it
  (`AnthropicMapping.RepairThenMapIsPairedIff`).
- **RRF constants.** An id found by both searches outranks every id found by one, for all result lists,
  exactly for limits up to 30 (`Fusion.DominanceIff`).
- **The vector index.** `Put` promises to keep both indexes in sync. The full-text table it does keep.
  The embeddings it keeps exactly when there is an embedder or the object is there already and its content
  embeds as before (`MemoryStore.Store.Put`). Over any Puts they are in sync exactly when, for every
  object, the content last put with an embedder embeds like the last content
  (`MemoryStore.VecInSyncAfterPutsIff`, with `MemoryStore.ReplaceWithoutEmbedderIsStale` as a failing run).
- **Module names.** Nothing asks for distinct module names, and the map of stop errors is complete for
  every outcome of the stops exactly when they are distinct (`ShutdownErrors.StopErrorsCompleteIff`; for
  any two equal names `ShutdownErrors.SameNameLosesAnError` has outcomes that lose an error).
- **Start after Stop.** `Run` does not wait for module goroutines to be scheduled, so a module's `Start`
  may be called after its `Stop` (`Supervisor.StopMayPrecedeStart`). The Start comes first exactly when the
  goroutine has called it by the time `Run` reaches that `Stop` (`Supervisor.StartPrecedesStopIff`); so it
  always does for the module whose end began the shutdown (`Supervisor.TriggerStartedFirst`).

## Model

| member | source | states |
|---|---|---|
| `ReactionStore.Store.RecordEventReactions` | pkg/waffle/sqlite/store.go:75-117 | one transaction: the event and every reaction, each clash on an id or an (event, handler) pair ignored, or nothing; a known event id never gets through; a lost answer may hide a commit; the answer is the one in store for it |
| `ReactionStore.Store.InsertReaction` | pkg/waffle/sqlite/store.go:103-117 | a row is dropped exactly when its id or its (event, handler) pair is stored |
| `ReactionStore.Store.ListPendingReactions` | pkg/waffle/sqlite/store.go:121-147 | at most the limit (100 when not positive) pending rows, each once, all of them when fewer exist; in some order |
| `ReactionStore.Store.ResetRunningReactions` | pkg/waffle/sqlite/store.go:175-185 | every running row and no other becomes pending, or an error is reported, which may hide the update |
| `ReactionStore.Store.ClaimReaction` | pkg/waffle/sqlite/store.go:188-202 | compare and set: success means the row was pending and is running now; an error may hide an update |
| `ReactionStore.Store.MarkReaction` | pkg/waffle/sqlite/store.go:214-234 | sets the status whatever it was; not found exactly when there is no row |
| `ReactionStore.Store.Get` | pkg/waffle/sqlite/store.go:252-279 | the type of the stored event, or not found exactly when there is none |
| `ReactionTables.InsertAllUnique` | pkg/waffle/sqlite/migrations.go:29-44 | inserting a batch keeps (event, handler) unique |
| `ReactionTables.InsertAllKeepsRows` | pkg/waffle/sqlite/store.go:91-95 | a batch changes no old row and adds only pending rows of its own event and handlers |
| `ReactionTables.InsertAllCoversHandlers` | pkg/waffle/sqlite/store.go:91-95 | with fresh ids no handler of the batch is left without its row |
| `Outcomes.SingleOwnership` | pkg/waffle/reaction_dispatcher.go:212-282 | in every reachable state the number of owners of a reaction (enqueue, queue, workers) is 1 if it is in flight and 0 otherwise |
| `Ownership.StepKeepsInv` | pkg/waffle/reaction_dispatcher.go:66-320 | every step keeps the invariant: exclusive hands, in-flight set = owned reactions, pending count = enqueue + queued + running, live reactions only, phases of channel, poller and lock |
| `Orderly.ClaimedRowsRunExactlyWhenOrderly` | pkg/waffle/reaction_dispatcher.go:66-90 | every claimed reaction's row is running until its mark, throughout the run, if and only if no Start resets rows while a Drain caller holds a claim |
| `Orderly.CalledAtMostOncePerStart` | pkg/waffle/reaction_dispatcher.go:296-320 | unless a reset of this process met a claim on its way to the select, a handler is called at most once per reaction between two resets, and never before the first one of a process, so also across crashes |
| `Overlap.CalledTwiceWhenStartOvertakesDrain` | pkg/waffle/reaction_dispatcher.go:113-120 | a concrete run: a Drain call claims, stops before its select, is overtaken by Start, and the handler of one reaction is called twice after one reset |
| `Overlap.ParkedOnNilOnlyCancels` | pkg/waffle/reaction_dispatcher.go:256-265 | a goroutine that entered its select before there was a channel stays there through every step of the others, until its cancellation |
| `Overlap.OverlapAllowsIllegalMove` | pkg/waffle/reaction_dispatcher.go:73-75 | from every state in which Start resets a claim on its way to the select, the process can reach a step that no move of the ledger matches |
| `Overlap.ResetKeepsLedgerIff` | pkg/waffle/reaction_dispatcher.go:66-90 | after a reset everything the process can do is a move of the ledger, if and only if no claim is on its way to the select |
| `Overlap.OverlapAllowsSecondCall` | pkg/waffle/reaction_dispatcher.go:73-75 | from every state in which Start resets such a claim, the process can call its handler twice after that reset |
| `Overlap.ResetKeepsOnceIff` | pkg/waffle/reaction_dispatcher.go:66-90 | after a reset the process calls each handler at most once per reaction in everything it can do, if and only if no claim is on its way to the select |
| `Outcomes.TerminalIsFinal` | pkg/waffle/sqlite/store.go:204-234 | succeeded and failed rows never change again over any run, crashes included, though the mark has no status guard |
| `Outcomes.CallsAreUnfinished` | pkg/waffle/reaction_dispatcher.go:322-333 | a handler is only called for a stored, unfinished reaction whose event exists, and it is registered for the type of that event |
| `Outcomes.NoPanicFromOwnSteps` | pkg/waffle/reaction_dispatcher.go:122-147 | the wait group never goes below zero, and once the jobs channel is closed only a Drain caller can still be inside an enqueue |
| `Outcomes.DrainedMeansSettled` | pkg/waffle/reaction_dispatcher.go:113-120 | when the pending count is zero, every claim of this process was run and its mark tried, or failed to decode, or was released |
| `Shutdown.ClosedStoresNothing` | pkg/waffle/bus.go:82-96 | once Shutdown has closed the bus the process stores no event and no reaction, and no Record gets in |
| `Shutdown.PollerComesBack` | pkg/waffle/reaction_dispatcher.go:163-179 | in every reachable state the poller that has not left can get to its next list as soon as drainMu is free, with or without a wake token |
| `Shutdown.ShutdownGetsThrough` | pkg/waffle/reaction_dispatcher.go:122-147 | from every reachable state with no Record under way and the poller in its select, closing, cancelling, the poller's exit and the close of the jobs channel follow one another |
| `Ledger.NoObligationIsLost` | pkg/waffle/reaction_dispatcher.go:92-111 | whatever follows a commit, reported or not, its event stays and each distinct handler name keeps exactly one row |
| `Ledger.OnlyRecordedObligations` | pkg/waffle/sqlite/store.go:75-101 | every event and every row a run adds was given to a Record of that run |
| `Ledger.BusRefinesLedger` | pkg/waffle/reaction_dispatcher.go:181-320 | unless a reset of the current process met a claim on its way to the select, all its steps refine a ledger of (event, handler) obligations: statuses move pending to running, running to succeeded or failed, pending to failed, and running to pending only in Start |
| `Ledger.ResetLeavesPending` | pkg/waffle/sqlite/store.go:175-185 | right after the reset every unfinished reaction is pending, and no finished one has moved |
| `WakeUp.NoLostWakeUp` | pkg/waffle/reaction_dispatcher.go:106-179 | after a Record's notify, until a list pass of the poller begins, the wake channel holds a token or the poller is on its way to a list |
| `DrainPass.NextPassIsSmaller` | pkg/waffle/reaction_dispatcher.go:181-210 | in every interleaving a further pass starts with a proper subset of the pending rows of the last one, apart from rows inserted or reset since its list |
| `DrainPass.PassesAreBounded` | pkg/waffle/reaction_dispatcher.go:181-210 | in every interleaving in which nothing is inserted or reset, drainPending lists at most once more than reactions were pending, then it releases its lock or waits |
| `DrainPass.CleanReturnIsComplete` | pkg/waffle/reaction_dispatcher.go:195-209 | a return after a pass that met no error and no new row or handler, with fewer than the limit lacking a handler, leaves only pending reactions without a handler |
| `DrainPass.EmptyListIsComplete` | pkg/waffle/reaction_dispatcher.go:186-195 | an empty list means that nothing is pending |
| `DrainAlone.DrainsEverything` | pkg/waffle/reaction_dispatcher.go:181-265 | when no other goroutine acts, nothing fails and no claim was overtaken, and fewer than a page lack a handler: drainPending claims and queues every pending reaction with a handler for its event's type, each once, behind the jobs already there, and changes no other row |
| `Dispatcher.Dispatcher.constructor` | pkg/waffle/reaction_dispatcher.go:47-64 | a new dispatcher is a booted process: nothing in flight, no channel, nothing pending |
| `Dispatcher.Dispatcher.Yield` | pkg/waffle/reaction_dispatcher.go:267-282 | any steps of the other goroutines leave the locals of this one, its script and its record of statements in place; in calm company they are quiet steps, alone there are none |
| `Dispatcher.Dispatcher.MarkInFlight` | pkg/waffle/reaction_dispatcher.go:267-276 | the reaction is taken exactly when it was not in flight: one step of the protocol |
| `Dispatcher.Dispatcher.ClearInFlight` | pkg/waffle/reaction_dispatcher.go:278-282 | the reaction leaves the in-flight set: one step of the protocol |
| `Dispatcher.Dispatcher.LoadEvent` | pkg/waffle/reaction_dispatcher.go:218-227 | one lookup is sent; the branch is error exactly when its answer is lost, otherwise found or not found as the event is stored: one step of the protocol |
| `Dispatcher.Dispatcher.LookUpHandler` | pkg/waffle/reaction_dispatcher.go:229-234 | goes on to the claim exactly when the pair of event type and handler name is registered |
| `Dispatcher.Dispatcher.Claim` | pkg/waffle/reaction_dispatcher.go:235-246 | one compare and set is sent; lost exactly when its answer is, otherwise won exactly when the row was pending: one step of the protocol |
| `Dispatcher.Dispatcher.DecodeEvent` | pkg/waffle/reaction_dispatcher.go:248-255 | goes on to the select exactly when the payload decodes |
| `Dispatcher.Dispatcher.GiveUp` | pkg/waffle/reaction_dispatcher.go:219-246 | the pending count and the in-flight set are undone in that order; a missing event or an undecodable payload then gets one mark, and unless its answer was lost the row is failed |
| `Dispatcher.Dispatcher.EnterSelect` | pkg/waffle/reaction_dispatcher.go:256-259 | entering the select reads the channel once: from then on it is that channel, or nil |
| `Dispatcher.Dispatcher.TrySend` | pkg/waffle/reaction_dispatcher.go:257-264 | a send needs a channel that was open at the select, still is and has room; a cancelled send a finished context; it goes on waiting exactly when neither is possible |
| `Dispatcher.Dispatcher.Enqueue` | pkg/waffle/reaction_dispatcher.go:212-265 | with any interference between statements, enqueue is a run of the protocol that consumes its reaction; it gives one of ten verdicts, sends exactly the statements of that verdict in order, and each verdict has its reason in the in-flight set, the answers, the stored event, the registered handlers, the payload or the context; queued exactly when it says so |
| `Dispatcher.Dispatcher.EnqueueNext` | pkg/waffle/reaction_dispatcher.go:198-205 | the loop over a page is left when the context has ended, and never otherwise except inside a select that still waits |
| `Dispatcher.Dispatcher.EndOfPass` | pkg/waffle/reaction_dispatcher.go:206-209 | goes round again exactly when something was queued and the page was full |
| `Dispatcher.Dispatcher.DrainPass` | pkg/waffle/reaction_dispatcher.go:185-209 | one turn of the outer loop is a run of the protocol that begins by sending the list; it goes on only with the lock and ready to list, and, while nothing is inserted or reset, only with strictly fewer pending rows |
| `Dispatcher.Dispatcher.DrainPending` | pkg/waffle/reaction_dispatcher.go:181-210 | taking drainMu and every following pass is a run of the protocol; a return leaves the lock free; while nothing is inserted or reset the loop ends by itself; alone it stops short only at a full queue, and when it returns it has drained everything that has a handler |
| `Dispatcher.Dispatcher.Drain` | pkg/waffle/reaction_dispatcher.go:113-120 | it reports done only at a pending count of zero, and then, on a reachable bus, every claim of the process is settled |
| `Dispatcher.Dispatcher.RunJob` | pkg/waffle/reaction_dispatcher.go:284-320 | taking a job, calling its handler, marking it and the two deferred calls are a run of the protocol, with interference in between; exactly one mark is sent, of that job, succeeded if the handler returned nil and failed otherwise, and unless its answer was lost the row has that status in the end |
| `Dispatcher.Dispatcher.MarkDone` | pkg/waffle/reaction_dispatcher.go:300-319 | the mark that is sent for a handled job and the step of the protocol it is, by its answer |
| `Dispatcher.Dispatcher.Dispatch` | pkg/waffle/reaction_dispatcher.go:92-111 | one transaction is sent, with one fresh row per handler in order; it succeeds exactly when its answer is given and the event is new, and then ends with the notify behind the store; otherwise nothing is stored, or all of it is and the answer was lost |
| `Dispatcher.Dispatcher.Record` | pkg/waffle/bus.go:82-114 | closed and not started are refused without effect; success means that the event is stored with a row for every handler its type had at the call; failure that the answer was lost or the event is known; a run of the protocol inside the read lock |
| `Dispatcher.Dispatcher.Start` | pkg/waffle/bus.go:145-161 | refuses a closed bus, does nothing on a started one; otherwise sends one reset and fails exactly when its answer is lost, and else has reset the rows and opened the channel: a run of the protocol |
| `DispatcherRuns.RunsKeepInv` | pkg/waffle/reaction_dispatcher.go:181-320 | whatever the other goroutines did in between, the code keeps the protocol's invariant and every finished reaction |
| `MemoryBus.NeverSendsOnClosed` | pkg/waffle/dispatcher.go:63-104 | a Record about to send always finds the jobs channel open |
| `MemoryBus.AcceptedJobsAreAccountedFor` | pkg/waffle/dispatcher.go:63-126 | every accepted job is in exactly one place: queued, running or finished; the pending count is queued + running + sends in progress |
| `MemoryBus.ShutdownRanEveryJobOnce` | pkg/waffle/dispatcher.go:91-104 | when Shutdown returns nil every accepted job was run exactly once and nothing is pending |
| `MemoryBus.RecordQueuesEveryHandler` | pkg/waffle/dispatcher.go:63-82 | a Record that stored its event and returns without being cancelled has queued exactly one job per handler |
| `MemoryBus.JobsAreTakenInOrder` | pkg/waffle/dispatcher.go:106-110 | the queue holds the jobs accepted last in the order of their acceptance, so workers take them in that order |
| `MemoryBus.ClosedAcceptsNothing` | pkg/waffle/bus.go:169-182 | after the close no Record gets in and no job is accepted |
| `SessionStore.Store.constructor` | pkg/session/sqlite/store.go:24-26 | a new store has no messages in any session |
| `SessionStore.Store.Record` | pkg/session/sqlite/store.go:93-130 | the whole batch is appended to its session in order, or nothing is; no other session changes; a blank source or a nil message is refused |
| `SessionStore.Store.Messages` | pkg/session/sqlite/store.go:52-90 | exactly the session's messages in order, none for an unknown source, an error for a blank one |
| `SessionStore.Store.GetOrCreate` | pkg/session/sqlite/store.go:137-166 | one session per source, found again later; creating one changes no transcript |
| `Repair.RepairHistory` | modules/agent/context.go:61-84 | the nested loops build the repaired transcript and the injected messages |
| `Repair.RepairAnswersAll` | modules/agent/context.go:61-84 | for every transcript, each tool call of the repaired one has a later tool message with its id |
| `Repair.InjectsNothingIffAnswered` | modules/agent/context.go:61-84 | nothing is injected if and only if nothing is unanswered, and then nothing changes |
| `Repair.RepairIsIdempotent` | modules/agent/context.go:61-84 | repairing the repaired transcript, or what the store then holds, injects nothing |
| `Repair.RepairIsConservative` | modules/agent/context.go:61-84 | removing the injected messages from the repaired transcript gives the input back, and keeping only them gives the injected ones |
| `Repair.InjectedAreNotices` | modules/agent/context.go:72-79 | every injected message is the notice, for a call that no later tool message answers |
| `Repair.StoredIsShownIffOnlyLastOpen` | modules/agent/context.go:34-46 | the repaired transcript is the stored one followed by the injected messages if and only if only the last message has unanswered calls |
| `AgentTurn.RequestsAreWhole` | modules/agent/loop.go:60-119 | from a whole history, every request of a turn has each tool-call message directly followed by one result per call, in call order |
| `AgentTurn.StopsRegular` | modules/agent/loop.go:60-119 | wherever the turn stops, only the last stored message may have unanswered calls |
| `AgentTurn.StoresWhatWasSaid` | modules/agent/loop.go:77-118 | a turn that replies has stored incoming ++ replies and results, each once and in order; one that stops earlier a prefix of it |
| `TurnContent.RequestsGrow` | modules/agent/loop.go:69-113 | the first request is all of history and incoming messages; each further one is the one before, the reply to it (role, content, calls, finish) and one tool message per call in call order with that call's id and output; there is a further one exactly when the reply asks for tools that can be run |
| `TurnContent.TurnEndsWithLastReply` | modules/agent/loop.go:84-116 | a turn ends with the reply to its last request if that says stop, with an error if it fails or says anything else, and otherwise with the process |
| `TurnContent.StoresTheConversation` | modules/agent/loop.go:84-94 | at every stop the session has got exactly the incoming messages, then what the last answered request holds behind them, then the reply to it, without assistant messages that neither say nor call anything |
| `TurnContent.HandleAsks` | modules/agent/processor.go:31-67 | for every session: the model is asked with the session, the injected answers and the incoming messages; what is stored follows the same messages; a turn is announced exactly when the model said stop, at the offset of its first message |
| `TurnContent.HandleStopsShort` | modules/agent/processor.go:69-105 | when perception ignores, fails or answers with an unknown action, the model is not asked and only the repair is stored |
| `AgentTurn.RepairStopped` | modules/agent/context.go:34-46 | what repair makes of any stopped session is stored ++ injected, and whole |
| `AgentTurn.HandleStopsRegular` | modules/agent/processor.go:31-67 | at every stop point of Handle the session is one that the next repair completes, and every request was whole |
| `AgentTurn.CrashAnywhere` | modules/agent/processor.go:31-67 | over any sequence of turns from an empty session, each stopped anywhere, the session stays of that kind |
| `AgentTurn.SliceIsTurnIff` | modules/memory/module.go:72-87 | cutting at the announced offset gives the turn and what follows it if and only if the session was empty, or there was an incoming message, or the turn said something, or something follows |
| `AgentTurn.SilentTurnShowsEverything` | modules/memory/module.go:72-87 | a turn without input and with an empty reply on a session of one message: the slice is the whole session |
| `AgentTurn.SliceIsTurn` | modules/memory/module.go:72-87 | with at least one incoming message the slice is the turn, also when repair injected messages in the same Handle |
| `AgentLoop.ContextMessages` | modules/agent/context.go:34-46 | returns the repaired transcript and appends what was injected |
| `AgentLoop.Round` | modules/agent/loop.go:66-118 | one round records exactly the exchange and leaves the turn that follows |
| `AgentLoop.Run` | modules/agent/loop.go:52-120 | the loop over the store sends, stores and ends as the turn function says, for every script of replies and outputs; its requests grow from the repaired history and the incoming messages by each reply and its tool results |
| `AgentLoop.Process` | modules/agent/processor.go:31-67 | Handle over the store does what the handle function says, including the offset of a finished turn |
| `AnthropicMapping.AssistantBlocksOf` | pkg/llm/providers/anthropic/client.go:153-173 | the content unless it is empty, then per call its id, name and arguments (an empty object for none), in order; a single space when there is neither |
| `AnthropicMapping.UserBlocksOf` | pkg/llm/providers/anthropic/client.go:135-151 | the content of a message without parts, otherwise its text parts and the images that are there, in order |
| `AnthropicMapping.MapMessages` | pkg/llm/providers/anthropic/client.go:97-133 | the loops that regroup tool results compute the recursive mapping, errors included |
| `AnthropicMapping.MappedPairedIff` | pkg/llm/providers/anthropic/client.go:97-133 | tool uses are answered by the next message of the mapped conversation if and only if every call is answered in the tool run behind it |
| `AnthropicMapping.RepairThenMapIsPairedIff` | modules/agent/context.go:61-84 | repair then map pairs every tool use if and only if no call is answered away from its tool run |
| `AnthropicMapping.MappingKeepsContent` | pkg/llm/providers/anthropic/client.go:97-173 | the blocks sent, read in order, are what the fields of the messages say in order |
| `AnthropicMapping.MappingFailsIff` | pkg/llm/providers/anthropic/client.go:128-130 | the mapping fails exactly on a transcript with an unknown role, and names the first one |
| `AnthropicMapping.OneParamPerGroup` | pkg/llm/providers/anthropic/client.go:97-133 | one provider message per user or assistant message and one per run of tool messages |
| `AnthropicMapping.EveryRequestIsPaired` | modules/agent/loop.go:60-119 | from a session a stop may have left, every request of the next turn maps to a paired conversation |
| `AnthropicMapping.HandleKeepsMappable` | modules/agent/processor.go:31-67 | wherever Handle stops, the session it leaves has only roles that the provider maps |
| `AnthropicMapping.EveryVisitIsPaired` | modules/agent/processor.go:31-67 | over any sequence of visits to a new session, each stopped anywhere, every request of every visit maps to a conversation in which each tool use is answered by the next message |
| `Fusion.Rrf` | pkg/memory/sqlite/store.go:250-274 | the result is the best ids of the union in (score descending, id ascending) order, cut to the limit; no omitted id beats a returned one |
| `Fusion.TotalIs` | pkg/memory/sqlite/store.go:250-257 | the score of an id is 1/(61 + i) for position i in the one list plus 1/(61 + j) for position j in the other, nothing for a list it is not in |
| `Fusion.TiesGoById` | pkg/memory/sqlite/store.go:263-268 | two ids that one search each found first come in id order |
| `Fusion.TopIsUnique` | pkg/memory/sqlite/store.go:263-273 | that result is unique, whatever the map iteration order and the sort |
| `Fusion.SwappedListsSameTop` | pkg/memory/sqlite/store.go:250-262 | swapping the two lists changes nothing |
| `Fusion.EmptyVectorKeepsOrder` | pkg/memory/sqlite/store.go:107-129 | without vector results the fused list is the head of the full-text list |
| `Fusion.DominanceIff` | pkg/memory/sqlite/store.go:20-22 | for lists cut to twice the limit, ids in both always rank before ids in one if and only if the limit is at most 30 |
| `MemoryStore.Store.Put` | pkg/memory/sqlite/store.go:55-103 | object, full-text row and embedding change together, or not at all exactly when the embedder or a statement fails; one full-text row per object, with its content, is kept; the embeddings stay in sync if and only if there is an embedder, or the object is there and its content embeds as before |
| `MemoryStore.ReplaceKeepsSync` | pkg/memory/sqlite/store.go:76-89 | deleting and inserting the full-text row of a replaced object keeps the index in sync |
| `MemoryStore.VecInSyncAfterPutsIff` | pkg/memory/sqlite/store.go:91-98 | after any Puts, with and without an embedder, every object has the embedding of its content if and only if for each one the content last put with an embedder embeds like the last content |
| `MemoryStore.ReplaceWithoutEmbedderIsStale` | pkg/memory/sqlite/store.go:91-98 | an embedded object replaced without an embedder keeps its old embedding |
| `MemoryStore.Store.Search` | pkg/memory/sqlite/store.go:107-145 | the fused ids that still have an object, in order, with a failed vector search treated as an empty one; an error only when the full-text search or the fetch of objects fails; for limits up to 30 and hits fetched up to twice the limit, ids of both lists come before ids of one |
| `MemoryStore.TopPutsBothFirst` | pkg/memory/sqlite/store.go:250-274 | for limits up to 30 the cut of the fused list has ids of both lists first, and has all of them if it has any other |
| `MemoryStore.InSyncSearchIsComplete` | pkg/memory/sqlite/store.go:107-145 | with hits from synchronised indexes no fused id is dropped |
| `FtsQuery.SanitizeFTSQuery` | pkg/memory/sqlite/store.go:282-297 | the builder loop, the split and the join print the maximal letter/digit runs as quoted prefix terms |
| `FtsQuery.PrintParse` | pkg/memory/sqlite/store.go:282-297 | parsing what was printed gives back exactly those runs in order, for every input, also for words like OR |
| `FtsQuery.RunsAreWoven` | pkg/memory/sqlite/store.go:282-297 | every string is its runs with gaps of other characters between them |
| `FtsQuery.WovenIsRuns` | pkg/memory/sqlite/store.go:282-297 | and no other sequence of runs decomposes it that way |
| `Migrations.ValidateMigrations` | pkg/migrations/migrations.go:177-190 | accepts exactly the sets with positive distinct versions and no blank name or statement |
| `Migrations.Runner.constructor` | pkg/migrations/migrations.go:57-62 | a new runner has no sets |
| `Migrations.Runner.Add` | pkg/migrations/migrations.go:64-81 | blank, duplicate (after trimming) and invalid sets are refused in that order and change nothing; otherwise the set is registered last |
| `Spaces.TrimSpaceIsTrimmed` | pkg/migrations/migrations.go:65-68 | a namespace is registered without the white space around it, and with everything else |
| `Migrations.OrderIsUnique` | pkg/migrations/migrations.go:91-93 | sorting distinct versions has one result, whatever the algorithm |
| `Migrations.PlanIsOrdered` | pkg/migrations/migrations.go:88-93 | the schedule runs namespaces in registration order and versions ascending within each |
| `Migrations.Runner.RunOne` | pkg/migrations/migrations.go:96-118 | the row is clean in the end and the SQL was started exactly if there was no row; or the row was dirty and nothing happened; or one of the four statements failed as the database had in store |
| `Migrations.Runner.Run` | pkg/migrations/migrations.go:83-122 | the nested loops do what the protocol does for the schedule and the fates the database has in store; it stops only at a failed statement or at the first dirty row; otherwise it starts the SQL of exactly the migrations without a row, in schedule order, and leaves the whole schedule clean; no migration is attempted twice, and on a clean schedule a run changes nothing |
| `MigrationOutcome.SoloIsAccounted` | pkg/migrations/migrations.go:83-122 | what each result of a run of the protocol alone means, by the fates of its statements and the rows it found |
| `MigrationOutcome.FineRunSucceedsIff` | pkg/migrations/migrations.go:96-119 | a run whose statements all work succeeds if and only if no row of its schedule is dirty |
| `MigrationOutcome.WholeIsSolo` | pkg/migrations/migrations.go:83-122 | the run of the code, item by item, is the run of the protocol |
| `MigrationProtocol.SoloResults` | pkg/migrations/migrations.go:83-122 | the same of one run of the protocol alone on the database |
| `MigrationProtocol.SoloIsARun` | pkg/migrations/migrations.go:83-122 | a run alone on the database is one of the interleavings |
| `MigrationProtocol.AttemptedAtMostOnce` | pkg/migrations/migrations.go:96-118 | for any number of runs, concurrent or one after the other, with any plans, stopped anywhere: each key's SQL is attempted at most once, never without a row, and a clean row means it completed |
| `MigrationProtocol.RowsArePrefix` | pkg/migrations/migrations.go:88-119 | with one plan the rows are always a prefix of it, all but possibly the last one clean |
| `MigrationProtocol.NothingRunsAfterSuccess` | pkg/migrations/migrations.go:96-106 | after one successful run no run of the plan changes the database again |
| `MigrationProtocol.InterruptedStaysDirty` | pkg/migrations/migrations.go:101-104 | a dirty row whose run is gone is final: later runs change nothing and none succeeds |
| `Migrations.EverythingBeforeIsClean` | pkg/migrations/migrations.go:88-119 | if a migration has a row, all migrations of earlier namespaces and all smaller versions of its own are clean |
| `Supervisor.RunIsOrdered` | pkg/supervisor/supervisor.go:57-142 | in every interleaving and for every pattern of failures the calls of Run are a prefix of one script, each module starts at most once, and only after the whole setup |
| `Supervisor.FailedInitStartsNothing` | pkg/supervisor/supervisor.go:64-69 | a run that reports an initialisation error has made calls of the setup only and started nothing |
| `Supervisor.FailedSetupIsTheEnd` | pkg/supervisor/supervisor.go:64-69 | in every interleaving a failing Init or post-init hook is the last call ever: Run has returned the initialisation error, and no module goroutine exists then or later |
| `Supervisor.InitErrorIff` | pkg/supervisor/supervisor.go:64-69 | a run reports an initialisation error if and only if some Init or post-init hook was called and failed |
| `Supervisor.EveryModuleIsSpawned` | pkg/supervisor/supervisor.go:76-78 | once Run waits for an event, every module has its goroutine |
| `Supervisor.RunContextEndsIff` | pkg/supervisor/supervisor.go:71-88 | the context of the modules has ended if and only if the caller's has or Run has cancelled it after the first event |
| `Supervisor.ShutdownIsComplete` | pkg/supervisor/supervisor.go:88-92 | otherwise cancellation, pre-stop hooks, one Stop per module in reverse order and post-stop hooks follow, and the reported reason did happen |
| `Supervisor.NoSendBlocks` | pkg/supervisor/supervisor.go:74-142 | a module goroutine with a terminal event always finds room in the channel, with a slot to spare |
| `Supervisor.StopMayPrecedeStart` | pkg/supervisor/supervisor.go:76-90 | a run in which a module's Start comes after its Stop |
| `Supervisor.StartPrecedesStopIff` | pkg/supervisor/supervisor.go:74-90 | in every interleaving and every continuation a module's Start is called before its Stop if and only if its goroutine had called it when Run reached that Stop |
| `Supervisor.TriggerStartedFirst` | pkg/supervisor/supervisor.go:79-90 | the module whose end began the shutdown was started before it is stopped |
| `ShutdownErrors.StopAll` | pkg/supervisor/supervisor.go:177-197 | the map holds a name exactly when a module of that name failed or timed out, with the failure of the first such module |
| `ShutdownErrors.RunHooks` | pkg/supervisor/supervisor.go:199-218 | the map holds a name exactly when a hook of that name failed, panicked or timed out, with the failure of the last such hook |
| `ShutdownErrors.StopErrorsCompleteIff` | pkg/supervisor/supervisor.go:177-197 | every stop failure is in the map, whatever the modules do, if and only if the module names are distinct |
| `ShutdownErrors.SameNameLosesAnError` | pkg/supervisor/supervisor.go:177-197 | for any two modules of one name: outcomes for which the map misses the failure of one |
| `ShutdownErrors.ErrorsAre` | pkg/supervisor/supervisor.go:177-218 | with distinct names each entry is the error of its own module or hook, or the missed deadline if it came back without one, and there is no other entry |

## Left out

- Telemetry, logging, spans, headers: no effect on the state.
- SQL text, encodings and time stamps: a statement or a transaction is one atomic step on maps; a failed transaction leaves nothing behind, and of the bus statements those that commit, reset, claim and mark may also be applied and reported as failed; ids are integers.
- What a handler does is a parameter of `Dispatcher.Dispatcher.RunJob`; which payloads decode is a constant of a dispatcher, and free in the state machine.
- ReactionStore.Store.ListPendingReactions: the order by creation time is not stated, because no property of the bus depends on it.
- ReactionStore.Store.Get: of the stored event only its type is modelled.
- SessionStore.Store.Record: a transaction that fails in the database is not modelled; a store call succeeds, is refused, or ends the process.
- SessionStore.Store.Messages: database and decoding errors are not modelled.
- One process per database for the bus; a panic in an error hook, in `Init` or in `Stop` ends the process and is a crash.
- Freshness of reaction ids: `ulid.Make` is taken to give ids never used before.
- Deadlock-freedom and fairness: safety only. A `Record` blocked on a full queue, and a send that waits forever, are states that simply do not go on.
- A send on the closed jobs channel: the enqueue of a `Drain` caller that is still running when `Shutdown` closes the channel has no step but its cancellation.
- WakeUp.NoLostWakeUp: a list statement that fails counts as the pass that has begun; the next attempt is the ticker's.
- Dispatcher.Dispatcher.DrainPending: when others record or restart meanwhile the loop has no bound of its own and is cut after a given number of turns; a wait in the select is cut after a given number of tries. That it drains everything is stated for a process in which nobody else acts, nothing fails and every payload decodes.
- Overlap.ResetKeepsLedgerIff: for a process with a worker and room in the queue, which the options enforce, and without an earlier overlap in the same process (only a reset that was reported as failed could have been one). The same holds of `Overlap.ResetKeepsOnceIff`.
- The `select` of the poll loop, `Shutdown` and the wake-ups of `poll` exist as steps of `ReactionProtocol` only, and the in-memory bus as a state machine only.
- Concurrent turns on one session, and session store calls that fail while the loop goes on with a warning.
- AgentTurn.CrashAnywhere: incoming batches are whole and sessions start empty, as the modules record them.
- The wording of the notice that repair injects is one constant value; message timestamps and metadata are not modelled.
- Fusion.Rrf: scores are reals, so floating-point rounding is not modelled; the limit is a natural number, so a negative one, on which the cut would panic, is not modelled.
- FtsQuery.SanitizeFTSQuery: letters and digits are a parameter, restricted to characters that are neither white space nor the quote.
- What the full-text and vector searches match: their hits are parameters of `MemoryStore.Store.Search`.
- Duplicate names of hooks (`validateHooks`), options and signal plumbing of the supervisor; the `Err` method of its report.
- OpenAI's name maps, Slack, GitHub, MCP, web fetch, email, TUI, CLI, configuration and developer tooling.
