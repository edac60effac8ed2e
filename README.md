# biskitz agent pipeline, modelled in Dafny

biskitz is a chat front end in which a team of LLM agents builds an npm package: a
project manager, a business analyst, a system architect, a tester and a developer. This
project models the deterministic parts around the agents:

- **Routing and orchestration** (`MessageContainer.tsx`, modules `Routing`, `Orchestrator`,
  `ChainProperties`):
  - the `(role, state)` routing table;
  - `processNextStep`, and the handler chain PM → BA → SA → tester → developer, with its
    test-driven branches, the zero-token halt and the developer's file merge;
  - `handleSend` and the mount and message-list effects.
  - The agents are inputs: one result per agent, since the chain calls each agent at
    most once. The handlers are methods of a `ChatSession` class whose fields are the
    component's state. Each handler is proved to leave exactly the state that a chain
    function `Run` gives, and the properties are proved about `Run`.
- **Context store** (`updateContext.ts`, modules `ContextTypes`, `ContextStore`):
  - one role's entry is replaced;
  - the first snapshot tags every line `+`;
  - once a role has files, the next update hands its records to `diffLines` and throws;
    the handler's `catch` runs with the context left as it was.
- **Tagged diff** (`fileDiff.ts`, module `TaggedDiff`). The line diff of the `diff`
  package is a function parameter.
- **Prompt assembler** (`convertToAIFormat.ts`, module `PromptAssembler`), with its role
  filter.
- **Model tiers** (`modelMapper.ts`, module `ModelMapper`).
- **The legacy hard-wired chain** (`message-container.tsx`, module `LegacyChain`), and the
  fragment expand toggle (module `ExpandToggle`).
- **The file explorer** (`FileExplorer.tsx`, module `FileExplorer`):
  - the positional line-diff counter;
  - the cursor walk building the file tree, its conversion and sibling sort;
  - the editor language of a file name;
  - the tab list.
- **The two flat-path to nested-tree converters** and the test-report fallback
  (`WebContainerRunner.tsx`, `runTestsInWebContainer.ts`, module `FileSystemTree`).
- **The developer's and tester's in-memory file tools** (`developer.ts`, `tester.ts`,
  module `AgentTools`).
- **The usage totals** (`usage.tsx`, module `Usage`).
- **A chat message's role label and `@mention` highlighting** (`MessageItem.tsx`, module
  `MessageItem`).

## Conventions

- JavaScript objects are association lists (module `Assoc`), so key order is explicit:
  - `Put` is property assignment: it replaces a binding in place or appends a new one;
  - `PutAll` is object spread `{...m, ...b}`, the assignments of `b`'s bindings in order;
  - `GetLast` is the last binding of a key in a batch.
- JavaScript string operations live in module `JsString`: `split`, `join`, `trimEnd`,
  `\s` and ASCII lower-casing.
- `undefined`/`null` are `Option`. A thrown error, where the code catches or reports it,
  is the `Err` of a `Result`.

Where the code and its typed interfaces disagree, the model follows the code:

- Once a role has files, `updateContext` hands the stored `AgentFile` records to
  `diffLines`, whose signature asks for strings; the call throws, so the program's own
  updates never get past a role's first snapshot.
- `updateInfo` writes `projectName`/`projectSummary`, not `name`/`summary`.
- The developer step never chains on, although the table routes RETEST and REVIEW.

## Model

| member | source | states |
|---|---|---|
| Routing.NextAgentFromTable | src/modules/projects/ui/components/MessageContainer.tsx:98-123 | an agent is returned only for a pair of the 15-row table, and it is that row's agent; every pair not in the table is invalid |
| Routing.TransitionsDeterministic | src/modules/projects/ui/components/MessageContainer.tsx:98-123 | no `(role, state)` pair occurs twice in the table |
| Routing.TableRowsAgree | src/modules/projects/ui/components/MessageContainer.tsx:98-123 | every row of the table is what `getNextAgent` returns for its pair (the converse of the first ensures) |
| Orchestrator.Dispatch | src/modules/projects/ui/components/MessageContainer.tsx:125-158 | `processNextStep` runs the handler of PM, BA, SA, tester or developer exactly when the table names that agent, passing the message's content and the context (and the state to PM); any other outcome halts |
| Orchestrator.UpdateInfo | src/modules/projects/ui/components/MessageContainer.tsx:84-96 | `projectName`/`projectSummary` are set; `name`, `summary` and the agents are unchanged |
| Orchestrator.StepPM | src/modules/projects/ui/components/MessageContainer.tsx:197-246 | the manager's step hands on only to a handler that ranks below it |
| Orchestrator.StepBA | src/modules/projects/ui/components/MessageContainer.tsx:254-289 | the analyst's step either halts or calls the architect |
| Orchestrator.StepSA | src/modules/projects/ui/components/MessageContainer.tsx:297-335 | the architect's step either halts or calls the tester handler |
| Orchestrator.PmAnswer | src/modules/projects/ui/components/MessageContainer.tsx:212-246 | what follows the manager's answer (the info update on INIT, its message, the context update) hands on only to a handler that ranks below the manager |
| Orchestrator.PmRecord | src/modules/projects/ui/components/MessageContainer.tsx:237-247 | when the manager's entry holds a snapshot the update throws into the `catch`: the chain halts and nothing more is committed; otherwise the committed context records the manager's text under its role, and the next handler ranks below the manager |
| Orchestrator.PmNext | src/modules/projects/ui/components/MessageContainer.tsx:245-246 | the next step is `processNextStep` on the message exactly when the answer used input tokens, and the chain halts otherwise |
| Orchestrator.BaAnswer | src/modules/projects/ui/components/MessageContainer.tsx:265-290 | after the analyst's answer the chain either halts or calls the architect |
| Orchestrator.BaRecord | src/modules/projects/ui/components/MessageContainer.tsx:280-290 | when the analyst's entry holds a snapshot the update throws into the `catch`: the chain halts and nothing more is committed; otherwise the committed context has an entry for the analyst, and the chain halts or calls the architect |
| Orchestrator.BaNext | src/modules/projects/ui/components/MessageContainer.tsx:288-289 | the architect is called, with the response as prompt and the updated context, exactly when the response is non-empty |
| Orchestrator.SaAnswer | src/modules/projects/ui/components/MessageContainer.tsx:309-336 | after the architect's answer the chain either halts or calls the tester handler |
| Orchestrator.SaRecord | src/modules/projects/ui/components/MessageContainer.tsx:326-336 | when the architect's entry holds a snapshot the update throws into the `catch`: the chain halts and nothing more is committed; otherwise the committed context has an entry for the architect, and the chain halts or calls the tester handler |
| Orchestrator.SaNext | src/modules/projects/ui/components/MessageContainer.tsx:334-335 | the tester handler is called, with the response as prompt and the updated context, exactly when the response is non-empty |
| Orchestrator.StepTester | src/modules/projects/ui/components/MessageContainer.tsx:343-366 | the tester's step either halts or calls the developer with the same prompt and context |
| Orchestrator.StepDev | src/modules/projects/ui/components/MessageContainer.tsx:374-414 | the developer's step never chains on |
| Orchestrator.DevRecord | src/modules/projects/ui/components/MessageContainer.tsx:406-415 | when the developer's entry holds a snapshot the update throws into the `catch` and the state is left as it was; otherwise the committed context has an entry for the developer |
| Orchestrator.Step | src/modules/projects/ui/components/MessageContainer.tsx:197-420 | each handler hands on to a handler of strictly lower rank (PM 5 > BA 4 > SA 3 > tester 2 > developer 1), so a chain ends |
| Orchestrator.RunDevUnfold | src/modules/projects/ui/components/MessageContainer.tsx:374-420 | a chain entered at the developer is the developer's step alone, after which `isProcessing` is cleared |
| Orchestrator.SendRunCases | src/modules/projects/ui/components/MessageContainer.tsx:426-443 | when recording the user's text throws, a send leaves only the user's message; otherwise it is the manager's REVISE chain on the updated context |
| Orchestrator.FindLast | src/modules/projects/ui/components/MessageContainer.tsx:69-75 | `findLast` finds nothing exactly when no message of the log passes the role test; otherwise it returns the last message that passes it (no later message passes) |
| Orchestrator.FindLastDev | src/modules/projects/ui/components/MessageContainer.tsx:45-48 | the reverse search finds nothing exactly when the log has no developer message; otherwise it returns the last developer message |
| Orchestrator.ChatSession.constructor | src/modules/projects/ui/components/MessageContainer.tsx:34-43 | the component's initial state: no merged files, next from BUSINESS_ANALYST, not processing, empty input, tier MID |
| Orchestrator.ChatSession.ProcessNextStep | src/modules/projects/ui/components/MessageContainer.tsx:125-158 | a missing message changes nothing; otherwise the new state is the chain run from `Dispatch` |
| Orchestrator.ChatSession.HandlePM | src/modules/projects/ui/components/MessageContainer.tsx:197-252 | the new state is `Run` of the manager's chain from the old state; the input, tier and shown fragment are unchanged |
| Orchestrator.ChatSession.CallPM | src/modules/projects/ui/components/MessageContainer.tsx:202-246 | the manager's step, up to the point where it hands on, leaves the state `StepPM` gives and returns the step `StepPM` chooses; the message handed on is the manager's |
| Orchestrator.ChatSession.AnswerPM | src/modules/projects/ui/components/MessageContainer.tsx:212-246 | handling the manager's answer leaves the state `PmAnswer` gives, and hands on the manager's message only when `PmAnswer` chooses to |
| Orchestrator.ChatSession.RecordPM | src/modules/projects/ui/components/MessageContainer.tsx:237-247 | the context update of `handlePM` leaves the state `PmRecord` gives, and hands on the manager's message only when `PmRecord` chooses to |
| Orchestrator.ChatSession.HandleBusinessAnalyst | src/modules/projects/ui/components/MessageContainer.tsx:254-295 | the new state is `Run` of the analyst's chain; the UI fields are unchanged |
| Orchestrator.ChatSession.CallBusinessAnalyst | src/modules/projects/ui/components/MessageContainer.tsx:258-289 | the analyst's step leaves the state `StepBA` gives and returns the step it chooses; the UI fields are unchanged |
| Orchestrator.ChatSession.AnswerBusinessAnalyst | src/modules/projects/ui/components/MessageContainer.tsx:265-289 | handling the analyst's answer leaves the state `BaAnswer` gives and returns the step it chooses |
| Orchestrator.ChatSession.RecordBusinessAnalyst | src/modules/projects/ui/components/MessageContainer.tsx:280-290 | the context update of `handleBusinessAnalyst` leaves the state `BaRecord` gives and returns the step it chooses |
| Orchestrator.ChatSession.HandleSystemArchitect | src/modules/projects/ui/components/MessageContainer.tsx:297-341 | the new state is `Run` of the architect's chain; the UI fields are unchanged |
| Orchestrator.ChatSession.CallSystemArchitect | src/modules/projects/ui/components/MessageContainer.tsx:302-335 | the architect's step leaves the state `StepSA` gives and returns the step it chooses; the UI fields are unchanged |
| Orchestrator.ChatSession.AnswerSystemArchitect | src/modules/projects/ui/components/MessageContainer.tsx:309-335 | handling the architect's answer leaves the state `SaAnswer` gives and returns the step it chooses |
| Orchestrator.ChatSession.RecordSystemArchitect | src/modules/projects/ui/components/MessageContainer.tsx:326-336 | the context update of `handleSystemArchitect` leaves the state `SaRecord` gives and returns the step it chooses |
| Orchestrator.ChatSession.HandleTester | src/modules/projects/ui/components/MessageContainer.tsx:343-372 | the new state is `Run` of the tester's chain; the UI fields are unchanged |
| Orchestrator.ChatSession.HandleDev | src/modules/projects/ui/components/MessageContainer.tsx:374-420 | the new state is `Run` of the developer's step; the UI fields are unchanged |
| Orchestrator.ChatSession.MergeDevResult | src/modules/projects/ui/components/MessageContainer.tsx:385-415 | after the developer's call the state is `DevCommit`'s: the merge into `mergedFiles`, then the message and the context update |
| Orchestrator.ChatSession.RecordDev | src/modules/projects/ui/components/MessageContainer.tsx:406-415 | the context update of `handleDev` leaves the state `DevRecord` gives |
| Orchestrator.ChatSession.HandleSend | src/modules/projects/ui/components/MessageContainer.tsx:422-444 | empty input changes nothing; otherwise the input is cleared and the state is `SendRun`'s (user message, context update, manager in REVISE) |
| Orchestrator.ChatSession.SendMessage | src/modules/projects/ui/components/MessageContainer.tsx:426-443 | after the input is cleared the state is `SendRun`'s; the UI fields are unchanged |
| Orchestrator.ChatSession.Mount | src/modules/projects/ui/components/MessageContainer.tsx:160-167 | only on the first mount with a non-empty log, the last message is routed once and the flag is set |
| Orchestrator.ChatSession.OnMessagesChanged | src/modules/projects/ui/components/MessageContainer.tsx:45-82 | the last developer fragment's files become `mergedFiles`; the tier is the last user message's model; the last non-user fragment is shown; nothing else changes |
| ChainProperties.StepFacts | src/modules/projects/ui/components/MessageContainer.tsx:197-420 | one handler adds at most one message, of its own role, and at most one agent call, of its own rank; with tdd off the tester step goes straight to the developer and changes nothing |
| ChainProperties.RunCallsDescend | src/modules/projects/ui/components/MessageContainer.tsx:125-420 | a chain only appends to the message and call lists, and the agents it calls descend strictly in rank from where it started |
| ChainProperties.DescendingBound | src/modules/projects/ui/components/MessageContainer.tsx:125-420 | a strictly descending call list below rank `b` has at most `b` calls |
| ChainProperties.SendCallsEachAgentOnce | src/modules/projects/ui/components/MessageContainer.tsx:422-444 | a send appends the user's message first, then the chain's; the chain makes at most five calls, no two to the same agent |
| ChainProperties.PmStepCall | src/modules/projects/ui/components/MessageContainer.tsx:205-210 | the manager is called with its phase, the rendered context and the THINK model of the tier |
| ChainProperties.PmChainFirstCall | src/modules/projects/ui/components/MessageContainer.tsx:197-210 | a chain entered at the manager calls the manager first |
| ChainProperties.PmChainUnrenderable | src/modules/projects/ui/components/MessageContainer.tsx:202-251 | a context that cannot be rendered stops the manager before any call or message |
| ChainProperties.SendStartsAtProjectManager | src/modules/projects/ui/components/MessageContainer.tsx:426-443 | recording the user's text throws exactly when the user's entry holds a snapshot, and then the send leaves only the user's message; otherwise its first call is the manager's, in REVISE, on the context that holds the user's text, or, when that context cannot be rendered, no agent is called |
| ChainProperties.TddOffSkipsTester | src/modules/projects/ui/components/MessageContainer.tsx:343-366 | with tdd off no chain calls the tester agent or creates a TESTER message |
| ChainProperties.RunKeepsInfo | src/modules/projects/ui/components/MessageContainer.tsx:212-247 | where a chain changes the context, its name, summary, version and project information are those of the context the chain started from, except after a manager's INIT turn whose update threw, which leaves exactly `updateInfo`'s context |
| ChainProperties.StepKeepsInfo | src/modules/projects/ui/components/MessageContainer.tsx:197-415 | one handler commits a context with the information of the one it was handed, and hands such a context to a handler below the manager; the one exception is the manager's INIT turn whose update threw, which halts with `updateInfo`'s context |
| ChainProperties.PmKeepsInfo | src/modules/projects/ui/components/MessageContainer.tsx:212-247 | the manager's step keeps the context's information, or on INIT with a throwing update halts with `updateInfo`'s context |
| ChainProperties.BaKeepsInfo | src/modules/projects/ui/components/MessageContainer.tsx:280-289 | the analyst's step keeps the context's information and hands it on |
| ChainProperties.SaKeepsInfo | src/modules/projects/ui/components/MessageContainer.tsx:326-335 | the architect's step keeps the context's information and hands it on |
| ChainProperties.DevKeepsInfo | src/modules/projects/ui/components/MessageContainer.tsx:406-413 | the developer's step keeps the context's information |
| ChainProperties.InitInfoIsOverwritten | src/modules/projects/ui/components/MessageContainer.tsx:212-247 | on INIT, when the manager's update succeeds, the name and summary written by `updateInfo` are lost (the committed context is rebuilt from the one the handler was given); when it throws, `updateInfo`'s context is what remains |
| ChainProperties.PmStepShape | src/modules/projects/ui/components/MessageContainer.tsx:220-247 | the manager's message carries its answer; when the manager's entry holds a snapshot the chain stops with only `updateInfo` committed on INIT; otherwise the context records its text, every other agent is kept, and the chain goes on exactly when the answer used input tokens and its state routes to a handler |
| ChainProperties.PmZeroTokensHalts | src/modules/projects/ui/components/MessageContainer.tsx:245-246 | an answer with no input tokens ends the chain after the manager's own message |
| ChainProperties.AnalystFollowsTable | src/modules/projects/ui/components/MessageContainer.tsx:265-290 | the analyst emits DESIGN, which the table routes to the architect it calls next; the architect is called exactly when the analyst's answer is non-empty and recording it does not throw |
| ChainProperties.ArchitectContinues | src/modules/projects/ui/components/MessageContainer.tsx:326-336 | the tester step follows exactly when the architect's answer is non-empty and recording it does not throw |
| ChainProperties.ArchitectFollowsTable | src/modules/projects/ui/components/MessageContainer.tsx:319-335 | the architect emits TEST with tdd and CODE without, and the table routes these to the tester and the developer |
| ChainProperties.TesterFollowsTable | src/modules/projects/ui/components/MessageContainer.tsx:345-363 | the tester emits CODE, routed to the developer, who is called exactly when the tester returned a result |
| ChainProperties.DeveloperMergesAndStops | src/modules/projects/ui/components/MessageContainer.tsx:385-414 | `mergedFiles` becomes the old files overlaid by the developer's (the union of paths, new content winning); the message carries RETEST or REVIEW and those files; the chain stops |
| ChainProperties.DevCommitMerges | src/modules/projects/ui/components/MessageContainer.tsx:385-413 | after the developer's answer, `mergedFiles` is the old files overlaid by the answer's files, with the keys in first-seen order, and the developer's message is appended |
| ChainProperties.MergeWins | src/modules/projects/ui/components/MessageContainer.tsx:386 | in the merge, a path the developer wrote reads as its last content there and any other path as before; distinct old keys give the keys of both, deduplicated |
| ChainProperties.UnreadableBreaksPrompt | src/utils/convertToAIFormat.ts:38-45 | a role whose entry holds non-empty text where files are expected (as in a context handed in) makes every prompt build fail |
| ChainProperties.SecondAnalysisStopsChain | src/modules/projects/ui/components/MessageContainer.tsx:280-290 | a second analyst pass, once the analyst's entry holds a snapshot, throws in `updateContext`: the chain ends after the analyst's call and message, the context is left as it was, and the architect is never called |
| ChainProperties.FirstAnalysisHoldsSnapshot | src/modules/projects/ui/components/MessageContainer.tsx:280-289 | a first analyst pass with a non-empty answer hands the architect a context in which the analyst's entry holds a snapshot |
| ChainProperties.UnhandledRunsNothing | src/modules/projects/ui/components/MessageContainer.tsx:154-156 | security engineer, DevOps and invalid pairs run no handler and change nothing |
| ContextStore.FirstSnapshot | src/utils/updateContext.ts:18-26 | the first snapshot has exactly the paths of the new files, in order, each with its content's snapshot |
| ContextStore.MergedFiles | src/utils/updateContext.ts:15-26 | a role without files gets the first snapshot; a role whose files are a snapshot makes `fileDiff` throw the TypeError of `split`; a role whose files are text gets the `fileDiff` text against that text |
| ContextStore.RecordsUnreadable | src/utils/fileDiff.ts:20-28 | a non-empty snapshot hands `diffLines` a record for one of the names visited |
| ContextStore.CharsReadable | src/utils/fileDiff.ts:25 | stored text hands `diffLines` a string for every name: a character, or `''` for a missing index |
| ContextStore.ViewReadable | src/utils/fileDiff.ts:24-28 | stored files with content can be diffed exactly when they are text |
| ContextStore.UpdateContext | src/utils/updateContext.ts:12-38 | the update throws exactly when the role holds a snapshot; otherwise only `agents[role]` changes, to the given text (even `''`) and the merged files; every other agent and property is kept; a missing `agents` is `{}` and a new role is appended |
| ContextStore.SnapshotRoundTrip | src/utils/updateContext.ts:22-23 | joining a snapshot's lines gives the content back; there is one `+` status per line, and one line more than there are newlines |
| ContextStore.SnapshotTrailingNewline | src/utils/updateContext.ts:22 | a trailing newline leaves an empty last line |
| ContextStore.SecondUpdateThrows | src/utils/updateContext.ts:15-17 | after a non-empty first snapshot, the next update of that role throws |
| ContextStore.EmptyDiffResetsSnapshot | src/utils/updateContext.ts:15-17 | when a role holds text whose diff against the new files comes out empty, the update succeeds, and the empty text counts as no files, so the next update takes the first-snapshot branch again |
| TaggedDiff.Tag | src/utils/fileDiff.ts:31-35 | `[ADDED]` if added, else `[REMOVED]` if removed, else `[CONST]` |
| TaggedDiff.PartLines | src/utils/fileDiff.ts:37-38 | no line of a part holds a newline |
| TaggedDiff.FileDiff | src/utils/fileDiff.ts:14-47 | the loops compute the specification `FileDiffText`: they throw the TypeError of `split` exactly when a visited name's previous value is not a string, and otherwise build a text that never ends in white space |
| TaggedDiff.RenderFilesErr | src/utils/fileDiff.ts:24-28 | the output fails exactly when some visited name's previous value is not a string, and then with the TypeError of `split` |
| TaggedDiff.AppendPart | src/utils/fileDiff.ts:30-43 | one part appends `tag line\n` for each of its lines, in order |
| TaggedDiff.FileNamesOrder | src/utils/fileDiff.ts:20-24 | the names visited are the union of both collections' keys, each once, previous keys first |
| TaggedDiff.PartLinesRoundTrip | src/utils/fileDiff.ts:37-42 | a part's rows give back its value, with a newline added where it did not end in one |
| TaggedDiff.PartLinesEmpty | src/utils/fileDiff.ts:37-38 | a part gives no lines exactly when its value is empty |
| TaggedDiff.RenderPartsEmpty | src/utils/fileDiff.ts:30-43 | a file's parts give no output exactly when every value is empty; any output holds a `[` |
| TaggedDiff.RenderFilesEmpty | src/utils/fileDiff.ts:24-44 | the untrimmed output is `''` exactly when every previous value is a string and every part of every file is empty; any other successful output holds a `[` |
| TaggedDiff.DiffEmptyIff | src/utils/fileDiff.ts:18-46 | the result is `''` exactly when every previous value is a string and every part of every file's diff is empty |
| PromptAssembler.AgentLines | src/utils/convertToAIFormat.ts:30-47 | a readable section starts with the header `Context from agent R:\n` |
| PromptAssembler.ConvertToLines | src/utils/convertToAIFormat.ts:30-48 | the loops build the section `AgentLines` specifies: the header alone for a missing agent; otherwise text, blank line and one `[status] line` row per line of each file |
| PromptAssembler.KeptAgents | src/utils/convertToAIFormat.ts:71-81 | every agent kept is one of the agents and passes the filter; the kept agents are a subsequence of the agents, so in key order and no more of them |
| PromptAssembler.ConvertToOpenAIFormatWithFilter | src/utils/convertToAIFormat.ts:50-93 | the loop builds the list `Conversation` specifies |
| PromptAssembler.ErrorAborts | src/utils/convertToAIFormat.ts:71-89 | once a prefix of the agents fails, the whole list fails with that error |
| PromptAssembler.AgentLinesErrIff | src/utils/convertToAIFormat.ts:38-45 | a section fails exactly when the agent's files are non-empty diff text, and only with the `undefined`-length TypeError |
| PromptAssembler.AgentMessagesShape | src/utils/convertToAIFormat.ts:71-89 | one `text` entry per kept agent, in key order; the role is `user` only for USER; the build fails exactly when a kept section is unreadable |
| PromptAssembler.ConversationShape | src/utils/convertToAIFormat.ts:54-92 | the project header comes first exactly when the name is non-empty, then the kept agents' sections (at most one more entry than agents) |
| PromptAssembler.ConversationFrom | src/utils/convertToAIFormat.ts:54-92 | the list is the project header (exactly when the name is non-empty) followed by the agents' messages, and it fails exactly when those fail, with their error |
| PromptAssembler.NoFilterKeepsAll | src/utils/convertToAIFormat.ts:74-80 | an absent or empty `rolesToTake` keeps every agent in order |
| PromptAssembler.FilterKeepsListed | src/utils/convertToAIFormat.ts:75-81 | a non-empty `rolesToTake` keeps exactly the listed agents |
| ModelMapper.ModelFor | src/utils/modelMapper.ts:1-6 | the four model names of the (tier, purpose) table |
| ModelMapper.OtherTiersAreMid | src/utils/modelMapper.ts:5 | every tier other than HIGH selects what MID selects |
| LegacyChain.LastAssistant | src/modules/projects/ui/components/message-container.tsx:94-96 | none is found exactly when all messages are the user's; otherwise the message found is the last non-user message of the log |
| LegacyChain.ChainFollowsOrder | src/modules/projects/ui/components/message-container.tsx:122-212 | a chain from the analyst calls the agents in order, going past an agent only on a truthy result, with one message per call, of that agent's role |
| LegacyChain.BaRunCalls | src/modules/projects/ui/components/message-container.tsx:122-212 | a chain from the analyst appends exactly the calls analyst, architect, tester, developer, in that order, cut after the analyst or the architect when it gave no text and after the tester when it gave no result; the architect is prompted with the analyst's text, the tester and the developer with the architect's |
| LegacyChain.PromptsArePassedOn | src/modules/projects/ui/components/message-container.tsx:136-181 | each later agent receives the previous agent's text; the developer receives the architect's text, as the tester did |
| LegacyChain.TesterWinsMerge | src/modules/projects/ui/components/message-container.tsx:203 | in the developer's fragment the tester's file wins on a shared path; the paths are the developer's followed by the tester's new ones |
| LegacyChain.DocumentFragments | src/modules/projects/ui/components/message-container.tsx:127-157 | the analyst's and architect's fragments each hold one document under a fixed name, with `''` for a missing result |
| LegacyChain.SuccessorsAgainstTable | src/modules/projects/ui/components/message-container.tsx:103-120 | where this chain and the routing table both go on they agree; a user message goes to the analyst here but to the manager in the table |
| LegacyChain.LegacySession.constructor | src/modules/projects/ui/components/message-container.tsx:70-79 | the initial state: no current files, next from BUSINESS_ANALYST, nothing expanded |
| LegacyChain.LegacySession.HandleBusinessAnalyst | src/modules/projects/ui/components/message-container.tsx:122-142 | the new state is the analyst's chain run over the old one; the UI fields are unchanged |
| LegacyChain.LegacySession.HandleSystemArchitect | src/modules/projects/ui/components/message-container.tsx:144-164 | the new state is the architect's chain run over the old one |
| LegacyChain.LegacySession.HandleTester | src/modules/projects/ui/components/message-container.tsx:166-187 | the new state is the tester's chain run: the tester's files become the current files and go to the developer |
| LegacyChain.LegacySession.HandleDev | src/modules/projects/ui/components/message-container.tsx:189-212 | the new state has the developer's message with the merged fragment |
| LegacyChain.LegacySession.HandleSend | src/modules/projects/ui/components/message-container.tsx:214-224 | empty input is ignored; otherwise the user's message, then the analyst's chain |
| LegacyChain.LegacySession.Mount | src/modules/projects/ui/components/message-container.tsx:103-120 | on first mount only: USER → analyst, BA → architect, SA → tester, TESTER → developer; any other role runs nothing |
| LegacyChain.LegacySession.OnMessagesChanged | src/modules/projects/ui/components/message-container.tsx:93-101 | the last non-user message's fragment, when it has one, is shown |
| LegacyChain.LegacySession.ToggleFragment | src/modules/projects/ui/components/message-container.tsx:349-353 | the expanded index becomes `Toggle` of the old one; nothing else changes |
| ExpandToggle.Toggle | src/modules/projects/ui/components/messageContainer/MessageItem.tsx:122-124 | `null` exactly when the clicked index was expanded, otherwise that index |
| ExpandToggle.ToggleTwice | src/modules/projects/ui/components/message-container.tsx:351-353 | two clicks restore the state exactly when nothing or that fragment was expanded; otherwise they collapse everything |
| FileExplorer.CalculateLineDiff | src/components/FileExplorer.tsx:54-87 | the early returns and the counting loop compute `LineDiff`; `undefined` content counts as empty |
| FileExplorer.NetChange | src/components/FileExplorer.tsx:58-86 | added minus deleted is the change in line count, and neither count exceeds its own side's lines |
| FileExplorer.UnchangedIff | src/components/FileExplorer.tsx:58-86 | both counts are zero exactly when the contents are equal |
| FileExplorer.SwapSides | src/components/FileExplorer.tsx:58-86 | swapping the versions swaps the counts |
| FileExplorer.LanguageOf | src/components/FileExplorer.tsx:41-51 | `plaintext` exactly for an extension not in the eight-entry table |
| FileExplorer.LanguageNames | src/components/FileExplorer.tsx:41-51 | the result is one of the seven language names |
| FileExplorer.LanguageFromLastDot | src/components/FileExplorer.tsx:40 | only the text after the last dot decides, regardless of ASCII case |
| FileExplorer.Find | src/components/FileExplorer.tsx:118 | the position found holds a node of that name, and no earlier node has it |
| FileExplorer.InsertWf | src/components/FileExplorer.tsx:114-136 | a walk keeps the tree well formed: distinct non-empty names per level, files childless, only files with counts |
| FileExplorer.RootWf | src/components/FileExplorer.tsx:105-137 | the walked tree is well formed for any collections |
| FileExplorer.InsertKeeps | src/components/FileExplorer.tsx:114-136 | a walk never removes a node, and never changes a file or a directory's own fields |
| FileExplorer.InsertPlaces | src/components/FileExplorer.tsx:114-136 | a walk along a clear path puts the file with its counts at the path's end |
| FileExplorer.InsertAlong | src/components/FileExplorer.tsx:114-136 | a walk adds nodes only along its path, each with its joined prefix as path, a file only at the end |
| FileExplorer.InsertedPlaces | src/components/FileExplorer.tsx:105-137 | for prefix-free paths, each path with a segment gets its own file node with its counts, and every node lies on some path's way |
| FileExplorer.RootPlaces | src/components/FileExplorer.tsx:105-137 | for prefix-free path sets, one file node per path of either collection, with that path's counts |
| FileExplorer.DirectoryHidesFile | src/components/FileExplorer.tsx:118-135 | without prefix-freeness, walking `a/b` then `a` leaves `a` a directory, so `a`'s counts are not shown |
| FileExplorer.FileKeepsCursor | src/components/FileExplorer.tsx:133-135 | a file met before the last segment keeps the cursor: `a` then `a/b` puts the file for `a/b` beside `a` at the top level |
| FileExplorer.InsertSorted | src/components/FileExplorer.tsx:149-155 | inserting adds exactly that node (as a multiset) |
| FileExplorer.InsertSortedSorted | src/components/FileExplorer.tsx:149-155 | inserting into a sorted level keeps it sorted |
| FileExplorer.Sort | src/components/FileExplorer.tsx:149-155 | the sort is a permutation, sorted by the comparator |
| FileExplorer.ConvertAll | src/components/FileExplorer.tsx:140-148 | each node of the level, converted, in order |
| FileExplorer.ConvertLevel | src/components/FileExplorer.tsx:139-155 | `convert` is a sorted permutation of the converted nodes |
| FileExplorer.ConvertSorted | src/components/FileExplorer.tsx:139-157 | every level of the finished tree is sorted |
| FileExplorer.DirectoriesFirst | src/components/FileExplorer.tsx:150-154 | on a sorted level no file stands before a directory |
| FileExplorer.TFind | src/components/FileExplorer.tsx:139-157 | the position found in a finished level holds that name; nothing is found exactly when no node has it |
| FileExplorer.ConvertFind | src/components/FileExplorer.tsx:139-155 | with distinct names, sorting does not change which node a name finds |
| FileExplorer.ConvertLookup | src/components/FileExplorer.tsx:139-157 | a path reaches, in the finished tree, the converted node it reaches in the walked tree |
| FileExplorer.BuildFileTree | src/components/FileExplorer.tsx:89-158 | `buildFileTree` step by step equals converting the tree the fold over all paths builds |
| FileExplorer.TreePlaces | src/components/FileExplorer.tsx:89-158 | for prefix-free paths, the finished tree has at each path's segments a file node with the last segment as name, the joined segments as path and that path's counts |
| FileExplorer.Without | src/components/FileExplorer.tsx:276 | exactly the other tabs; distinct tabs stay distinct; the tabs are unchanged when the path has none |
| FileExplorer.LastTab | src/components/FileExplorer.tsx:279 | a tab is found exactly when the last tab exists and is not `''`, and it is one of the tabs |
| FileExplorer.Explorer.constructor | src/components/FileExplorer.tsx:254-255 | no selection, no tabs |
| FileExplorer.Explorer.FilesChanged | src/components/FileExplorer.tsx:262-268 | a non-empty first path becomes the selection and the only tab; otherwise nothing changes |
| FileExplorer.Explorer.OpenFile | src/components/FileExplorer.tsx:270-273 | the path is selected and appended to the tabs only if absent, so tabs never repeat |
| FileExplorer.Explorer.CloseTab | src/components/FileExplorer.tsx:275-280 | the tab is removed; if it was selected, the last remaining tab or none is selected |
| FileExplorer.Explorer.SelectedLanguage | src/components/FileExplorer.tsx:283-285 | `plaintext` exactly when nothing (or `''`) is selected or its extension is unlisted; otherwise the selection's language |
| FileSystemTree.Find | src/components/WebContainerRunner.tsx:37 | the position found holds an entry of that name, and no earlier entry has it |
| FileSystemTree.Bind | src/components/WebContainerRunner.tsx:52-56 | after `current[name] = e` the name finds `e`; other names find what they found before, at the same place |
| FileSystemTree.LookupBind | src/components/WebContainerRunner.tsx:52-56 | after a binding, a lookup through the bound name reaches into the new entry, and a lookup through any other name is unchanged |
| FileSystemTree.Below | src/components/WebContainerRunner.tsx:37-48 | there is nowhere to move into exactly when the part is bound to a file |
| FileSystemTree.MountFails | src/components/WebContainerRunner.tsx:35-49 | a path's walk throws exactly when one of its strict prefixes is a file |
| FileSystemTree.MountMessage | src/components/WebContainerRunner.tsx:44-48 | the error names the shortest prefix that is a file, joined with `/` |
| FileSystemTree.MountPlaces | src/components/WebContainerRunner.tsx:35-56 | a successful walk binds the path to a file with exactly the contents, replacing what was there, and leaves a directory at every strict prefix |
| FileSystemTree.MountFrame | src/components/WebContainerRunner.tsx:35-56 | paths apart from the walked one are unchanged |
| FileSystemTree.MountNoSegments | src/components/WebContainerRunner.tsx:51-56 | a path with no segments binds a file named `undefined` at the top level |
| FileSystemTree.ConvertStrict | src/components/WebContainerRunner.tsx:28-60 | the loop computes the fold over the entries in order, ending at the first error |
| FileSystemTree.LaterWins | src/components/WebContainerRunner.tsx:31-56 | the entry mounted last decides what its path holds |
| FileSystemTree.PlaceAgrees | src/utils/runTestsInWebContainer.ts:12-21 | where the strict walk succeeds, the lenient walk builds the same tree |
| FileSystemTree.PlacePlaces | src/utils/runTestsInWebContainer.ts:12-21 | with no file on the way, the lenient walk binds the path to its file and leaves directories on the way |
| FileSystemTree.FileKeepsLevel | src/utils/runTestsInWebContainer.ts:18-20 | `a` then `a/b` leaves `a` a file and puts `b` beside it, where the strict walk reports a conflict at `a` |
| FileSystemTree.ConvertLenient | src/utils/runTestsInWebContainer.ts:7-25 | the loop computes the lenient fold over the entries |
| FileSystemTree.ConversionsAgree | src/utils/runTestsInWebContainer.ts:7-25 | when every path has a segment and the strict conversion succeeds, both conversions give the same tree |
| FileSystemTree.FirstIndex | src/utils/runTestsInWebContainer.ts:88 | the first position of the character, or none exactly when it is absent |
| FileSystemTree.LastIndex | src/utils/runTestsInWebContainer.ts:88 | the last position of the character, or none exactly when it is absent |
| FileSystemTree.JsonSlice | src/utils/runTestsInWebContainer.ts:88-93 | a slice exists exactly when a `}` follows some `{`; it runs from the first `{` to the last `}`; otherwise the error quotes the output |
| AgentTools.ReadOne | src/agents/developer.ts:49-52 | the path is kept; content is present exactly when the path is bound to a non-empty content, and then it is that content |
| AgentTools.ReadAll | src/agents/tester.ts:50-53 | one answer per requested path, in request order |
| AgentTools.CodeGenState.constructor | src/agents/developer.ts:20-22 | each call starts with no files |
| AgentTools.CodeGenState.CreateOrUpdateFiles | src/agents/developer.ts:35-40 | the batch is assigned in order and the keys stay distinct; the whole accumulated map is returned |
| AgentTools.CodeGenState.ReadFiles | src/agents/tester.ts:49-54 | one answer per requested path, in request order; each keeps its path, and its content is present exactly when the path is bound in the current files to non-empty content, and then it is that content |
| AgentTools.ReadAfterWrite | src/agents/tester.ts:36-41 | a path reads back its last content in the batch (`null` when empty); a path not in the batch reads as before; the keys are the old ones followed by the batch's new ones |
| Usage.UsageTotals | src/modules/projects/ui/components/usage.tsx:28-40 | the count is the number of messages; missing counts contribute nothing; an empty list gives zeros; one message gives its own counts (with `TotalsAppend`, the totals are the sums over the messages) |
| Usage.TotalsAppend | src/modules/projects/ui/components/usage.tsx:28-40 | the totals of a concatenation are the sums of the parts' totals |
| Usage.TotalsNonNegative | src/modules/projects/ui/components/usage.tsx:33-40 | with no negative counts, no total is negative |
| MessageItem.RoleLabel | src/modules/projects/ui/components/messageContainer/MessageItem.tsx:67-71 | the label is shown, with the role as text, exactly when the role is not USER |
| MessageItem.PiecesConcat | src/modules/projects/ui/components/messageContainer/MessageItem.tsx:82 | the parts of `split(/(@\S+)/g)` concatenate to the content |
| MessageItem.PiecesShape | src/modules/projects/ui/components/messageContainer/MessageItem.tsx:82 | the parts alternate text, match, text: text parts hold no `@\S`; each match is `@` and a non-empty non-white-space run that is maximal, since the part after it starts with white space or is the empty last part |
| MessageItem.SpanOf | src/modules/projects/ui/components/messageContainer/MessageItem.tsx:83-89 | a part keeps its text and is highlighted exactly when it starts with `@` |
| MessageItem.Render | src/modules/projects/ui/components/messageContainer/MessageItem.tsx:72-94 | an empty content shows nothing; a highlight appears only for an assistant's content holding `@` |
| MessageItem.RenderSpells | src/modules/projects/ui/components/messageContainer/MessageItem.tsx:80-94 | the shown spans spell out the content exactly |
| MessageItem.HighlightedMatches | src/modules/projects/ui/components/messageContainer/MessageItem.tsx:82-89 | every match is highlighted and no text part after a match is |
| MessageItem.HighlightedLead | src/modules/projects/ui/components/messageContainer/MessageItem.tsx:82-89 | the leading text part is highlighted exactly when the content starts with a `@` that white space or nothing follows |
| Assoc.Put | src/agents/developer.ts:37 | property assignment: the key reads as the new value; the keys are unchanged when it was already a key, and otherwise it is appended |
| Assoc.GetPutAll | src/agents/developer.ts:36-38 | after a batch, a key bound in it reads as its last binding there, and any other key as before |
| Assoc.OverlayGet | src/modules/projects/ui/components/MessageContainer.tsx:386 | `{...a, ...b}` reads a key from `b` when `b` has it, else from `a` |
| Assoc.Dedup | src/utils/fileDiff.ts:20-22 | `Array.from(new Set(...))` holds every element of the input, nothing else, and none twice |
| JsString.Split | src/utils/updateContext.ts:22 | one part more than separators, and no part holds the separator |
| JsString.JoinSplit | src/utils/updateContext.ts:22 | joining the parts with the separator gives the string back |
| JsString.TrimEnd | src/utils/fileDiff.ts:46 | the longest prefix not ending in white space; only white space is removed |
| JsString.Segments | src/components/FileExplorer.tsx:111 | the non-empty parts; none holds the separator |

## Left out

- The LLM agents (`projectManager`, `businessAnalyst`, `systemArchitect`, and
  `generateText` in `developer`/`tester`): their answers are inputs. The manager's schema
  limits its state to ANALYSIS/DESIGN/CODE, and its error fallback returns ANALYSIS with 0
  tokens. The model accepts any state string, which covers both.
- The `diff` package's `diffLines` on two strings: a function parameter, of which nothing
  is assumed. Handed a value that is not a string it throws a TypeError from `split`,
  modelled as `SPLIT_ERROR` (the message text is illustrative).
- A stored string's property names (`length`, the `String.prototype` methods) as file
  names: `fileDiff` would read a number or a function there; the model reads `''`.
- The E2B sandbox, the WebContainer (boot, mount, spawn, the global singleton), `npm` and
  `vitest` runs, `JSON.parse`, prisma, tRPC and auth: I/O outside the model.
  `testCode` is left out for the same reason.
- React scheduling: `setState` is modelled as an immediate assignment. The stale
  `mergedFiles` closure that `handleDev` reads is the field's current value.
- Floating point: `timeTaken` and `time_taken_seconds` are not modelled.
- `parseMarkdown`, breadcrumb rendering and `selectedContent`: display only.
- Property lookups that reach the object prototype (a path segment or a role named
  `constructor`), and JavaScript's reordering of integer-like keys: association lists have
  neither.
- FileExplorer.InsertParts: the `current` cursor is an aliased reference into `root`. It is
  modelled as recursion over values, which computes the same tree but not the aliasing.
- FileSystemTree.Mount: the cursor walk is modelled the same way. A throw in the middle of
  `Object.entries(...).forEach` leaves the earlier entries' mutations in `tree`; the model
  reports only the error, since the caller discards the tree.
- FileExplorer.Sort: `localeCompare` is a rank function on names, which must be a total
  order. The stability of `Array.prototype.sort` is not proved; `ConvertFind` shows that it
  does not matter for lookups by name.
- FileExplorer.Explorer.SelectedLanguage: `toLowerCase` is modelled as ASCII lower-casing.
  For the eight listed extensions this gives the same lookup result.
- MessageItem.Pieces: characters are Unicode scalar values, not UTF-16 code units; `\S` is
  the complement of JavaScript's `\s` set.
- The agent files do not match their call sites in `MessageContainer.tsx` (arity,
  `.tokens`, `.response`). The model follows the call sites.
- `undefined` and `''` are treated alike wherever the code only tests truthiness.
- The handlers are mutually recursive methods, as in the code, rather than a loop. Their
  `finally` blocks are modelled by clearing `isProcessing` once the chain ends.
- `projectManager.ts` and the other agent modules are not part of this model.
