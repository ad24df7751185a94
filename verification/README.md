# A verified model of the coding-agent conversation engine

This project models the part of the Go coding agent that keeps, replays and repairs conversations, and proves
what it promises. To check it with Dafny 4.11, run in this directory

    dafny verify --resource-limit 2000000 --verification-time-limit 0 --warn-contradictory-assumptions dfyconfig.toml

## What is modelled

| files | component |
|---|---|
| `Types.dfy`, `Sequences.dfy` | messages, content blocks, models; facts about sequences |
| `Transform.dfy`, `TransformLaws.dfy`, `ToolCallIds.dfy`, `AnthropicEncoder.dfy`, `Orphans.dfy` | history repair for replay, the tool-call id normalisers, the Anthropic request, and when its calls and results are paired |
| `Sessions.dfy`, `BranchLaws.dfy`, `SessionContext.dfy`, `SessionFiles.dfy` | the session tree as a value: append, leaf, branch, context, file, migration |
| `Manager.dfy` | the session manager as a class with an exact index, proved against those values |
| `Compaction.dfy`, `Fork.dfy`, `Navigation.dfy`, `RuntimeSessions.dfy` | transformations of the tree, and what all of them keep |
| `Failures.dfy`, `KeptResults.dfy`, `AbortedRun.dfy` | concrete sessions and a concrete run at which the code falls short |
| `AgentRun.dfy` | the run loop as a machine of atomic steps over an environment |
| `RunQueues.dfy`, `RunJournal.dfy`, `ConversationLog.dfy`, `RunSession.dfy`, `TurnShown.dfy`, `EndToEnd.dfy`, `Continue.dfy` | what every run of `Prompt` and `Continue` keeps, up to the request on the wire |
| `Runtime.dfy` | the runtime as a class with the loops of the Go code, proved to do what the machine does |
| `SidecarClient.dfy`, `SidecarTree.dfy`, `ForestLoop.dfy` | the sidecar's request/reply protocol; its branch walk and forest, and when the loop that builds it ends |
| `CodexStream.dfy`, `EventStream.dfy`, `CodexDepartures.dfy` | the reader of the Codex event stream; the parser of the HTML standard (WHATWG), sections 9.2.5 and 9.2.6; where they differ |

Code that updates state is written as classes and loops whose contracts equate the new state with a function
of the old one (`Manager`, `Runtime`, the two passes of history repair, the stream reader); the laws are then
proved about those functions. Code that runs concurrently is written as atomic steps: the other goroutines of
the runtime are an arbitrary function from step numbers to what they did since the last step (`AgentRun.Env`),
and the sidecar client is a labelled step system in which every order of enabled steps counts.

Inputs that the model takes as parameters: the provider's answers and the class of its errors (cancelled,
overflow, transient), tool outcomes, the reply to a summary request, token counts, whether a file can be
written, clocks, random ids, JSON codecs (with round trips assumed only where a lemma says `Faithful`), and
timestamps. A Go string is a sequence of bytes, one char each. A random id may repeat: theorems about the tree
ask that no append was given an id in use (`clash`), which `Sessions.NextIdFresh` shows to need a hundred and
one failed draws in a row.

## What the proofs found

- The second pass of `transformMessages` never flushes at the end of the list. A request is paired exactly when
  no call waits at the end (`AnthropicEncoder.RequestPairedIff`). A run started by `Prompt` always meets this,
  even after aborted runs (`EndToEnd.EveryRequestIsPaired`). A run started by `Continue` meets it if the
  conversation ends with no call waiting or if a queued message is delivered first
  (`Continuation.ContinueIsPaired`). Otherwise its first request is paired exactly when the context ends with no
  call waiting (`Continuation.ContinueFirstRequestIff`), that is, after a run that ended in the middle of the
  tools, exactly when no call of that turn lacks its result, or the threshold compaction comes between and the turn
  has more than the eight messages it keeps (`Continuation.ContinueAfterAbortIff`). A whole run at which it fails:
  `AbortedRun.ContinueAfterAbortIsUnpaired`. The comment above the function promises results for all orphaned calls.
- None of this needs the session to be a tree. A session opened from a file may have repeated ids, unknown or later
  parents, cycles and an unknown leaf; on each of them an append extends the leaf's branch by the new entry
  (`Sessions.NewBranch`, `Sessions.AppendExtends`). What an append can do there is to change another branch, exactly
  one that hangs on the very id the new entry gets (`Sessions.BranchStaysIff`).
- The other half, that each result has its call just before it, can be lost by a compaction: the cut at the eighth
  message-like entry may fall between a call and its result. It is lost exactly when a result comes before the
  first kept answer (`KeptResults.CompactionOrphansIff`, `EndToEnd.EveryRequestHoldsNoOrphansIff`); a conversation
  of ten messages at which it is: `KeptResults.CompactionOrphansResult`.
- A prompt asks the provider for at most 128 answers and 256 summaries, so it calls it at most 384 times: each turn
  may try one compaction at the threshold and one after an overflow, and a failed one counts too
  (`AgentRun.PromptIsBounded`).
- A fork copies `firstKeptEntryId` although entries get new ids, so the fork of a compacted branch keeps the
  conversation exactly when the kept part was empty (`Forks.ForkOfCompacted`; a fork that drops eight messages:
  `Failures.ForkDropsKeptMessages`).
- A fork of a branch that never sets the model or the thinking level takes the running ones instead
  (`Forks.ForkPreservesMeaning` says exactly when; `Failures.ForkChangesModel`).
- `Open` on a file without an entry leaves the previous leaf in place, so the leaf is known exactly when some line is
  an entry or there was no leaf before (`SessionFiles.OpenedLeafKnownIff`, `Failures.HeaderOnlyLeavesLeafUnknown`).
- Two facts about methods that the session manager exports, at states which the runtime never brings about, as it
  never empties the leaf of a session with entries (`RuntimeSessions.EverySessionHasItsLeaf`): after `SetLeaf("")` a
  compaction loses the messages it should keep (`Compactions.CompactionConservesIff`,
  `Failures.CompactionLosesMessages`), and an entry appended then is a second root, which reopening puts under the
  first (`SessionFiles.ReopenPersisted`, `Failures.SecondRootIsReparented`).
- The Codex reader and the HTML standard agree on a stream, for every JSON decoder, exactly when their payloads are
  the same up to trimming, repetitions, empty ones and `[DONE]` (`CodexDepartures.AgreeIff`). On plain streams, whose
  lines end in LF or CR LF, they differ exactly when the unfinished block at the end, which the standard discards,
  holds the first terminal event (`CodexDepartures.PlainDepartsIff`, `CodexDepartures.UnfinishedDeparts`).
- The loop of the sidecar that builds the forest ends exactly when no cycle of nodes is below a root, that is, when no
  descent from a root takes more nodes than there are entries (`SidecarTree.TreeLoopEndsIff`). Unique ids are enough,
  whatever the parents (`SidecarTree.UniqueIdsEnd`), but not needed (`SidecarTree.RepeatedRootsEnd`); with a repeated
  id a root may be below its own child, and the loop never ends (`SidecarTree.RepeatedIdsNeverEnd`).

## Model

| member | source | states |
|---|---|---|
| `Transform.RunFirstPass` | internal/providers/transform.go:20-78 | the first loop, with its id table filled on the way, computes the rewriting of each message under the renamings learnt before it |
| `Transform.AppendMissingToolResults` | internal/providers/transform.go:84-103 | the closure appends one error result, in call order, for every pending call without a result, and none for the others |
| `Transform.RunSecondPass` | internal/providers/transform.go:80-132 | the second loop equals the pass that carries the pending calls and the answered ids |
| `Transform.TransformMessages` | internal/providers/transform.go:15-133 | the whole function is the second pass after the first |
| `TransformLaws.SecondPassOnlyInserts` | internal/providers/transform.go:80-132 | deleting inserted error results gives the input back, and each stands just before a user or assistant message |
| `TransformLaws.SecondPassAnswers` | internal/providers/transform.go:80-132 | in the output no user or assistant message comes while a call waits, and the calls waiting at the end are those of the input |
| `TransformLaws.AnsweredMeans` | internal/providers/transform.go:80-132 | by positions: a tool call that a later user or assistant message follows has a result before the first such message |
| `TransformLaws.SecondPassIdleIff` | internal/providers/transform.go:80-132 | the second pass changes nothing if and only if nothing is left unanswered |
| `TransformLaws.RenamingKeepsLinks` | internal/providers/transform.go:20-78 | if no id is used by both a target-model and another-model assistant, a result that follows a kept call carries the call's rewritten id |
| `TransformLaws.FirstPassKeepsAnswers` | internal/providers/transform.go:20-78 | under the same condition the first pass keeps answered calls answered and closed histories closed |
| `TransformLaws.FirstPassKeepsWaiting` | internal/providers/transform.go:20-78 | if moreover no new name is an id in use or given twice, waiting calls stay waiting |
| `TransformLaws.CleanHistoryNeedsNoRepair` | internal/providers/transform.go:15-133 | for a history without waiting calls the second pass inserts nothing |
| `TransformLaws.TransformIdempotent` | internal/providers/transform.go:15-133 | for every history and every idempotent normaliser, repairing twice is repairing once |
| `ToolCallIds.SanitizeId` | internal/providers/openai.go:1142-1153 | every char outside letters, digits, underscore and hyphen becomes an underscore, the others and the length stay |
| `ToolCallIds.NormalizeAnthropicToolCallId` | internal/providers/anthropic.go:231-240 | at most 64 safe chars, empty only for the empty id |
| `ToolCallIds.NormalizeMistralToolId` | internal/providers/openai.go:1125-1140 | always nine letters or digits: those of the id, then the pad by position |
| `ToolCallIds.MistralIdempotent` | internal/providers/openai.go:1125-1140 | normalising twice is normalising once |
| `ToolCallIds.OpenAIChatIdempotent` | internal/providers/openai.go:1104-1123 | the same over all branches: empty, Mistral ids, ids with a bar, long ids of OpenAI |
| `ToolCallIds.TransformIdempotentForProviders` | internal/providers/transform.go:15-133 | repair is idempotent for the Anthropic, Mistral and OpenAI chat normalisers, on all histories |
| `AnthropicEncoder.AnthropicMessagesFromContext` | internal/providers/anthropic.go:161-229 | the builder that goes ahead over runs of results and one back computes the request of the repaired history |
| `AnthropicEncoder.EncodeResults` | internal/providers/anthropic.go:200-221 | the inner loop takes exactly the run of results and stops at the first other message |
| `AnthropicEncoder.GroupingConserves` | internal/providers/anthropic.go:161-229 | grouping loses, repeats and reorders no part |
| `AnthropicEncoder.EncodePairedIff` | internal/providers/anthropic.go:161-229 | an answered history encodes to a request where each tool use is answered at once, if and only if no call waits at its end |
| `AnthropicEncoder.RequestPairedIff` | internal/providers/anthropic.go:161-229 | for every history with known roles and call ids, the request is paired if and only if no call waits at the end after renaming |
| `AnthropicEncoder.HistoryIsPairedIff` | internal/providers/anthropic.go:161-229 | and, if the new names are fresh, exactly a history with no call waiting is sent paired |
| `AnthropicEncoder.SettledHistoryIsPaired` | internal/providers/anthropic.go:161-229 | a history with no call waiting is sent paired to every target that shares no id with another model |
| `Orphans.HoldsNoOrphansMeans` | internal/providers/anthropic.go:200-221 | by positions: every result of a request message answers a use of the message just before it |
| `Orphans.EncodeOrphansIff` | internal/providers/anthropic.go:161-229 | a request has such an orphan if and only if its history has a result without its call in the kept answer before it |
| `Orphans.SecondPassOrphansIff` | internal/providers/transform.go:80-132 | the second pass neither makes orphans nor removes them |
| `Orphans.FirstPassOrphansIff` | internal/providers/transform.go:20-78 | nor does the first, if no id is shared and the new names are fresh |
| `Orphans.RequestOrphansIff` | internal/providers/anthropic.go:161-229 | so the request of a history has an orphan if and only if the history has one |
| `Orphans.PartOrphansIff` | internal/session/manager.go:467-485 | a part of a history without orphans has one if and only if a result comes before its first kept answer |
| `Sessions.NextIdFresh` | internal/session/manager.go:581-589 | a fresh id clashes if and only if a hundred draws and the glued pair are all in use |
| `Sessions.PathIsLineage` | internal/session/manager.go:380-411 | in a tree the walk up is the list of ancestors |
| `Sessions.AppendKeepsTree` | internal/session/manager.go:506-526 | an append keeps unique ids, earlier parents and a known leaf |
| `Sessions.NewBranch` | internal/session/manager.go:380-411 | on every entry graph, cyclic or dangling, with repeated ids or not: the branch of a new entry is its parent's branch and the entry |
| `Sessions.BranchStaysIff` | internal/session/manager.go:380-411 | on every entry graph: a new entry leaves a branch as it was if and only if the walk does not stop at the new entry's id |
| `Sessions.AppendBranches` | internal/session/manager.go:506-526 | where every parent is known, an append changes no existing branch |
| `Sessions.AppendExtends` | internal/session/manager.go:210-378 | for every session, after an append the leaf's branch is the old one and the new entry, or a new root if there was no leaf |
| `Sessions.HistoryIsStable` | internal/session/manager.go:198-251 | over any run of appends and leaf moves no existing branch ever changes, if parents and leaf are known; a tree stays a tree |
| `BranchLaws.PathIsBranch` | internal/session/manager.go:380-411 | on every entry graph, cyclic or dangling, the branch has no repeated id, is linked by parents, ends at the requested entry and goes up as far as it can |
| `BranchLaws.BranchIsPath` | internal/session/manager.go:380-411 | and it is the only such list |
| `BranchLaws.BranchCharacterised` | internal/session/manager.go:380-411 | both directions together: the description holds of the branch and of no other list |
| `BranchLaws.ChainBranchIff` | internal/session/manager.go:380-411 | the branch of a chain's last entry is the whole chain if and only if its ids are distinct |
| `SessionContext.BuildContext` | internal/session/manager.go:413-504 | the loops over the branch compute the settings, the summary of the last compaction, the kept entries' messages and those after it |
| `SessionContext.FirstWithId` | internal/session/manager.go:469-475 | the search by id finds the very compaction entry whose summary is shown |
| `SessionContext.AppendKept` | internal/session/manager.go:476-485 | the loop appends exactly the messages from the first entry with the kept id up to the compaction, and none if there is no such entry |
| `SessionFiles.MigrateFillsIn` | internal/session/manager.go:549-575 | migration only fills in missing ids and missing later parents |
| `SessionFiles.MigrateIdleIff` | internal/session/manager.go:549-575 | it changes nothing and draws no id if and only if every id and later parent is there |
| `SessionFiles.MigrationCompletes` | internal/session/manager.go:549-575 | every loaded non-empty list ends with all ids and later parents and the leaf at the last entry; running it again changes nothing |
| `SessionFiles.OldFileBecomesChain` | internal/session/manager.go:549-575 | a file without ids and parents becomes one chain, whose branch is the whole file in order if and only if the drawn ids are distinct |
| `SessionFiles.OrdinaryRun` | internal/session/manager.go:506-526 | over any run of appends and non-empty leaf moves the file stays the header and the entries |
| `SessionFiles.ReopenPersisted` | internal/session/manager.go:131-182 | reopening fails if and only if a line is too long; it gives the entries back without rewrite if and only if no second root is among them |
| `SessionFiles.PersistAndReopen` | internal/session/manager.go:111-182 | round trip: after any ordinary run from a new session, opening its file gives the same session with the last entry as leaf |
| `SessionFiles.OpenedLeafKnownIff` | internal/session/manager.go:131-182 | for every file that opens: the leaf is the last entry's, or the old one if no line is an entry, so it is known if and only if some line is an entry or there was no leaf |
| `SessionFiles.HeaderOnlyKeepsOldLeaf` | internal/session/manager.go:569-571 | in particular, on the file of a session without entries the leaf stays what it was |
| `SessionManager.Manager.CreateNew` | internal/session/manager.go:111-129 | the new state, also when the directory or the file cannot be made |
| `SessionManager.Manager.FlushAll` | internal/session/manager.go:528-547 | the file is rewritten as header and entries, or left alone |
| `SessionManager.Manager.SetLeaf` | internal/session/manager.go:198-208 | the leaf moves to a known id or to none, and to nothing else |
| `SessionManager.Manager.NextIdSeen` | internal/session/manager.go:581-589 | draws until an unused id, at most a hundred times, then two glued |
| `SessionManager.Manager.Append` | internal/session/manager.go:210-378 | one entry under the leaf, or no change but the drawn id; the index stays exact |
| `SessionManager.Manager.AppendEntry` | internal/session/manager.go:506-526 | entries, index, leaf and file grow together, or nothing does |
| `SessionManager.Manager.Branch` | internal/session/manager.go:380-411 | the walk with its seen set and the in-place reversal compute the branch, and end on every graph |
| `SessionManager.Manager.BuildContext` | internal/session/manager.go:413-504 | the context of the branch at an id, or at the leaf |
| `SessionManager.Manager.Open` | internal/session/manager.go:131-182 | every error case, which leaves the state alone, and the loaded state |
| `SessionManager.Manager.RebuildIndexAndMigrate` | internal/session/manager.go:549-575 | index, migration, version, leaf and the conditional rewrite |
| `Compactions.SelectCompactionFirstKeptEntry` | internal/agent/runtime.go:1807-1821 | the loop finds the entry from which as many message-like entries remain as asked for, if there are more |
| `Compactions.FormatCompactionSource` | internal/agent/runtime.go:1884-1923 | the loop gives the lines of the entries before the first kept one |
| `Compactions.CompactContext` | internal/agent/runtime.go:1752-1805 | succeeds exactly when there is something to cut, a source, a reply and a writable file; the new state |
| `Compactions.CutKeepsEight` | internal/agent/runtime.go:1807-1821 | the cut splits the message-like entries into the past and exactly the last eight |
| `Compactions.SourceCoversThePast` | internal/agent/runtime.go:1884-1923 | every message-like entry with text before the cut has its line in the summary source |
| `Compactions.CompactionConserves` | internal/agent/runtime.go:1752-1821 | on every entry graph, if there is a leaf whenever there are entries: after a compaction the context is the summary and the messages of exactly the last eight message-like entries, whatever was compacted before |
| `Compactions.CompactionWithoutLeaf` | internal/agent/runtime.go:1752-1821 | for the exported manager, at a state the runtime never brings about: with no leaf set the context is the summary alone |
| `Compactions.CompactionConservesIff` | internal/agent/runtime.go:1752-1821 | so compaction conserves if and only if there is a leaf, or nothing to keep |
| `RuntimeSessions.EverySessionHasItsLeaf` | internal/agent/runtime.go:2294-2300 | over any run of appends, compactions, navigations, forks, new and opened sessions, a session with entries has a leaf: the one caller that moves the leaf skips an empty target |
| `Failures.CompactionLosesMessages` | internal/session/manager.go:198-208 | nine messages, `SetLeaf("")` and a compaction: the eight messages to keep are lost |
| `Failures.SecondRootIsReparented` | internal/session/manager.go:549-575 | two messages with `SetLeaf("")` between them: the second root is under the first after reopening |
| `Failures.HeaderOnlyLeavesLeafUnknown` | internal/session/manager.go:569-571 | a session with a leaf that opens a header-only file is left with a leaf that is no entry |
| `Failures.ForkDropsKeptMessages` | internal/agent/runtime.go:2563 | nine messages, a compaction and a fork: the eight kept messages are in the context of the session and not in that of the fork |
| `Failures.ForkChangesModel` | internal/agent/runtime.go:2588-2592 | a fork of a conversation that sets no model shows the running one |
| `KeptResults.CompactionOrphansIff` | internal/agent/runtime.go:1752-1821 | a compaction of a conversation without orphaned results leaves none if and only if no result comes before the first kept answer among the last eight message-like entries |
| `KeptResults.CompactionOrphansResult` | internal/agent/runtime.go:1807-1821 | ten messages at which the cut parts a call from its result |
| `Forks.ForkSession` | internal/agent/runtime.go:2525-2601 | the new state, also after a write that fails at any point or a model that cannot be resolved; succeeds exactly for a known entry when all writes do and the model can be resolved |
| `Forks.ForkIsWhole` | internal/agent/runtime.go:2525-2601 | when no write fails that state is the whole copy |
| `Forks.ForkIsChain` | internal/agent/runtime.go:2525-2601 | the new session's branch is the copied bodies in order and the trailer |
| `Forks.ForkPreservesMeaning` | internal/agent/runtime.go:2525-2601 | without compactions all messages stay; model and thinking level stay if and only if the branch sets them or they are the running ones |
| `Forks.ForkOfCompacted` | internal/agent/runtime.go:2563 | with a compaction the copy is the last summary and what came after it, and keeps the conversation if and only if the kept part was empty |
| `Navigation.NavigateTree` | internal/agent/runtime.go:2609-2650 | the leaf moves and the summary of the branch left behind is appended there; when it fails and what then holds |
| `Navigation.ContextGrows` | internal/session/manager.go:413-504 | an appended entry, unless a compaction, adds its own message to the context and changes nothing else |
| `Navigation.NavigationKeepsHistory` | internal/agent/runtime.go:2609-2650 | moving changes no existing branch, if parents and leaf are known |
| `Navigation.NavigationMovesContext` | internal/agent/runtime.go:2609-2650 | on every entry graph the new context is the target's and the summary message |
| `Navigation.ThereAndBack` | internal/agent/runtime.go:2609-2650 | moving away and back gives the old context back, whatever was summarised on the way |
| `AgentRun.StepDescends` | internal/agent/runtime.go:626-921 | every step of the loop goes down a measure: each turn ends, whatever the environment does |
| `AgentRun.RunToEnd` | internal/agent/runtime.go:566-924 | every run ends |
| `AgentRun.PromptIsBounded` | internal/agent/runtime.go:626-711 | at most 128 requests for an answer and 256 for a summary a prompt, retries and failures included |
| `RunQueues.StepConserves` | internal/agent/runtime.go:626-921 | every step keeps both queues conserved |
| `RunQueues.PromptConservesQueues` | internal/agent/runtime.go:566-924 | for each queue and either mode: what was queued and accepted is, in order, what was appended from it, the held batch, and the queue; a finished run holds nothing |
| `RunJournal.StepKeepsJournal` | internal/agent/runtime.go:712-921 | every step keeps the log made of whole turns and the turn under way |
| `RunJournal.StepKeepsSkips` | internal/agent/runtime.go:861-906 | every step keeps the order: skipped results follow run ones and are followed by the steering messages |
| `RunJournal.PromptKeepsJournal` | internal/agent/runtime.go:626-921 | a run's messages are whole turns; only an aborted run, or one that could not append, ends inside a turn, with results of its first calls |
| `RunJournal.AnswersHaveResults` | internal/agent/runtime.go:735-907 | by positions: call number k of an assistant message has its result k places further on, with its id and name |
| `RunJournal.ResultsHaveCalls` | internal/agent/runtime.go:735-907 | and every result stands in such a place |
| `ConversationLog.ContextIsSuffix` | internal/session/manager.go:413-504 | the context is at most one summary message and a suffix of the conversation |
| `ConversationLog.ContextInherits` | internal/session/manager.go:413-504 | a compaction never opens a call: what the conversation promises, the context keeps |
| `ConversationLog.ContextOrphansIff` | internal/session/manager.go:413-504 | the context of a conversation without orphans has one if and only if it shows a result before any kept answer |
| `RunSession.TurnsClose` | internal/agent/runtime.go:712-921 | whole turns leave no call waiting |
| `RunSession.StepKeepsSession` | internal/agent/runtime.go:626-921 | every step keeps the branch under the leaf equal to the old conversation and the journal, and the requests inheriting from it |
| `RunSession.PromptKeepsSession` | internal/agent/runtime.go:382-406 | the same over every run of a prompt, with any compactions meanwhile |
| `RunSession.ContinueKeepsSession` | internal/agent/runtime.go:430-449 | the same over every run of `Continue` |
| `TurnShown.StepShows` | internal/agent/runtime.go:626-921 | every step keeps the messages of the turn under way as the last entries of the branch under the leaf |
| `TurnShown.PromptShowsTurn` | internal/agent/runtime.go:382-407 | so however a prompt ends, the branch ends with the turn it was in |
| `TurnShown.SessionWaits` | internal/agent/runtime.go:1807-1821 | the context of such a session waits for the turn's calls without a result; after a compaction too, unless the turn has more than eight messages |
| `EndToEnd.EveryStateIsKept` | internal/agent/runtime.go:626-921 | the invariants hold in every state of every run; at every loop head the log is whole turns |
| `EndToEnd.EveryRequestIsPaired` | internal/agent/runtime.go:402-406 | in a run of `Prompt`, on any session, tree or not, also after aborted runs, every request sent is paired in the Anthropic encoding |
| `EndToEnd.EveryRequestHoldsNoOrphansIff` | internal/agent/runtime.go:402-406 | if the conversation had no orphan and no failed answer asks for tools, a request has one if and only if its history shows a result before the first kept answer |
| `EndToEnd.PromptKeepsClean` | internal/agent/runtime.go:566-924 | a run that was not cut short leaves a clean conversation clean |
| `EndToEnd.CleanRunsNeedNoRepair` | internal/providers/transform.go:80-132 | if no earlier prompt was cut short, the second pass inserts nothing into any request, also after compactions |
| `Continuation.ContinueIsPaired` | internal/agent/runtime.go:430-449 | every request of a run of `Continue` is paired if the conversation ends with no call waiting, or a queued message is delivered first |
| `Continuation.ContinueFirstRequestIff` | internal/agent/runtime.go:430-449 | otherwise the first request is paired if and only if no call waits at the end of the context before it, which is the one that `Continue` tests unless the threshold compaction comes between |
| `Continuation.CutShortLeavesWaiting` | internal/agent/runtime.go:735-861 | a run that ended inside a turn leaves exactly that turn's calls without a result waiting |
| `Continuation.ContinueAfterAbortIff` | internal/agent/runtime.go:430-449 | so the first request of `Continue` after it, whatever was compacted before, is paired if and only if every call of the turn has its result, or the threshold compaction comes between and the turn has more than eight messages |
| `AbortedRun.ContinueAfterAbortIsUnpaired` | internal/agent/runtime.go:430-449 | a whole run of `Prompt` aborted at its second tool, and the run of `Continue` after it, which sends an unpaired request |
| `AgentRuntime.Runtime.SteerMessage` | internal/agent/runtime.go:451-468 | a message is queued if and only if it is from the user and has content, and nothing else changes |
| `AgentRuntime.Runtime.FollowUpMessage` | internal/agent/runtime.go:478-495 | the same for the other queue |
| `AgentRuntime.Runtime.DequeueSteering` | internal/agent/runtime.go:1324-1338 | the batch and the rest, in either mode |
| `AgentRuntime.Runtime.DequeueFollowUp` | internal/agent/runtime.go:1340-1354 | the same for the other queue |
| `AgentRuntime.Runtime.DeliverPending` | internal/agent/runtime.go:631-638 | the delivery loop reaches, by steps of the machine, the state with the batch delivered or the end at a failed append |
| `AgentRuntime.Runtime.ExecuteCall` | internal/agent/runtime.go:735-861 | one call is one step: run, inactive, failed, cancelled, not appended or interrupted |
| `AgentRuntime.Runtime.ExecuteTools` | internal/agent/runtime.go:735-921 | the tool loop reaches, by steps of the machine, its next loop head or its end |
| `AgentRuntime.Runtime.SkipRemaining` | internal/agent/runtime.go:862-906 | the loop over the remaining calls reaches, by steps of the machine, which log a skipped result each, the next loop head or the end at a failed append |
| `AgentRuntime.Runtime.HandleError` | internal/agent/runtime.go:672-706 | cancellation, overflow compaction, bounded retry and failure are the machine's |
| `AgentRuntime.Runtime.WaitForRetry` | internal/agent/runtime.go:1604-1624 | the delay ends with a retry, an abort or the error |
| `AgentRuntime.Runtime.HandleAnswer` | internal/agent/runtime.go:712-733 | the answer is appended; without calls the follow-ups decide between another turn and the end |
| `AgentRuntime.Runtime.RunTurn` | internal/agent/runtime.go:626-921 | one pass of the loop body reaches, by steps of the machine, the next loop head, or the end |
| `AgentRuntime.Runtime.RunLoop` | internal/agent/runtime.go:566-924 | for every environment the loop ends in the very state in which the machine ends |
| `AgentRuntime.Runtime.Prompt` | internal/agent/runtime.go:382-407 | the same for a whole prompt, so all laws above hold of it |
| `AgentRuntime.Runtime.Continue` | internal/agent/runtime.go:430-449 | the same for `Continue`, with its test of the last role and the queues |
| `SidecarClient.NextKeeps` | internal/extensionsidecar/client.go:195-346 | every step of every party keeps the invariant of map, channels, reader and finisher |
| `SidecarClient.ClientIsSafe` | internal/extensionsidecar/client.go:195-290 | in every interleaving: at most one send a channel, never on a full slot; a caller gets only its own response; a returned call is not pending |
| `SidecarClient.RepliesAreNotLost` | internal/extensionsidecar/client.go:231-248 | a waiting caller to whose channel a reply was sent can receive it |
| `SidecarClient.RepliesAreReal` | internal/extensionsidecar/client.go:257-290 | what a caller gets was written by the sidecar, or `finish` was called |
| `SidecarClient.ShutdownCompletes` | internal/extensionsidecar/client.go:323-337 | from every reachable state `finish` reaches its end by its own steps |
| `SidecarClient.EveryCallCanReturn` | internal/extensionsidecar/client.go:231-248 | once `done` is closed every call returns by at most three steps of its own |
| `SidecarTree.ComputeBranch` | sidecar/node-extension-runtime/main.mjs:2179-2191 | on every entry graph the sidecar's walk gives the session manager's branch |
| `ForestLoop.EndsIff` | sidecar/node-extension-runtime/main.mjs:2216-2227 | over any lists of children, in whatever order each turn puts them: the stack gets empty if and only if no descent from it takes more nodes than there are |
| `SidecarTree.TreeLoopEndsIff` | sidecar/node-extension-runtime/main.mjs:2193-2229 | for every list of entries the loop ends if and only if no cycle of nodes is below a root |
| `SidecarTree.UniqueIdsEnd` | sidecar/node-extension-runtime/main.mjs:2193-2229 | it does for unique ids, whatever the parents |
| `SidecarTree.BuildSessionTree` | sidecar/node-extension-runtime/main.mjs:2193-2229 | whenever the loop ends: the nodes visited are exactly those below a root, and their children are sorted; for unique ids the entries above which there is a root, and no others, stand exactly once in the roots or in the children of a shown node |
| `SidecarTree.SortedChildren` | sidecar/node-extension-runtime/main.mjs:2218-2223 | a node's children are its child entries, each once, in the order of their times |
| `SidecarTree.AcyclicForestIsWhole` | sidecar/node-extension-runtime/main.mjs:2193-2229 | when parents are acyclic every entry stands exactly once in the returned forest |
| `SidecarTree.TreeIsShownWhole` | sidecar/node-extension-runtime/main.mjs:2193-2229 | in particular for a session tree |
| `SidecarTree.RepeatedIdsNeverEnd` | sidecar/node-extension-runtime/main.mjs:2193-2229 | three entries of which two share an id, at which the stack is never empty, whatever the times |
| `SidecarTree.RepeatedRootsEnd` | sidecar/node-extension-runtime/main.mjs:2193-2229 | two roots that share an id, at which the loop ends |
| `CodexStream.ParseEvent` | internal/providers/openai.go:783-840 | what a block's data lines mean, with the default messages |
| `CodexStream.LinesRoundTrip` | internal/providers/openai.go:842-846 | the lines and the tail joined give the stream back |
| `CodexStream.ParseCodexSSEResponse` | internal/providers/openai.go:779-873 | the one pass over the bytes is: cut into blocks at blank lines, take the first terminal event |
| `CodexStream.LaterBytesNeverMatter` | internal/providers/openai.go:842-870 | after a terminal event in a finished block no later byte matters, nor how the stream ends |
| `CodexDepartures.AgreeIff` | internal/providers/openai.go:842-870 | for every stream: reader and standard agree for every decoder if and only if their payloads, but for spaces around lines, empty ones, `[DONE]` and repetitions, are the same in the same order |
| `CodexDepartures.PlainIsFinished` | internal/providers/openai.go:842-860 | on a stream without a byte order mark, lone carriage returns and bare `data` lines the standard's events are the reader's finished blocks |
| `CodexDepartures.PlainDepartsIff` | internal/providers/openai.go:862-869 | there they differ if and only if no event of the standard is terminal and the unfinished block is |
| `CodexDepartures.UnfinishedDeparts` | internal/providers/openai.go:862-869 | a stream and a decoder at which they differ |

## Left out

- Live sidecar during a run: extension hooks and host actions may append or queue at any event; the runtime is modelled without a sidecar.
- Other commands during a run: `SetModel`, thinking-level changes and manual compaction may write to the session between two steps of the loop; in the model only the run writes to it.
- Tool calls of a response: the response's own list is taken to be the tool calls of the assistant message.
- `Continuation.ContinueFirstRequestIff`: asks that the new names of calls are fresh and that no tool-call id is shared with another model.
- `PromptMessage` and the images of a prompt: same path as `Prompt`.
- Error classification and the context-usage estimate: token arithmetic and message patterns, taken as given by the environment.
- Retry delays: only which of timer and cancellation came first is modelled, not durations.
- Partial writes and concurrent writers of the session file: a write either happens or fails as a whole.
- The nine append methods of the session manager: each fills one body and calls the same append, so one `Append` over all bodies stands for them.
- Unicode spaces beyond ASCII in `TrimSpace`: no string here is compared after trimming such a space.
- `SidecarTree.BuildSessionTree`: where the loop does not end nothing is stated of it; for repeated ids the forest is described by what is visited, not by counting.
- `CodexDepartures.AgreeIff`: payloads are compared after trimming the spaces around each data line, which the standard keeps.
- `EndToEnd.EveryRequestIsPaired`: asks that no tool-call id is shared between the target model and another model, that calls have ids (the encoder gives an id to a call without one, but its result cannot know it) and that messages have a known role.
- `SessionFiles.PersistAndReopen`: asks that JSON decodes what it encoded.
- `SidecarClient.EveryCallCanReturn`: a caller's write to the sidecar is taken to return; a write blocked on a full pipe, or on the write lock another such write holds, is not modelled.
- Marshalling and the process behind the sidecar client: a write succeeds or fails; the reader may read any line.
- A fork's start event and its hooks: with a live sidecar they may cancel the fork or fail after it.
- The other provider encoders, HTTP, OAuth, configuration, tools, the command line, HTML export and the older copies under `pkg/`: input and output, or the same shapes again.
