# Stage 0A cold-prospect outreach, modelled in Dafny

This project models the core of a small chat-driven sales assistant ("Steve"). The assistant
takes one cold prospect through stage 0A of an outreach workflow: a warm-up message, then a
classification of the prospect's reply, then a contextual message, a follow-up, a move to
Stage 1, or archiving.

The model has three modules. Each one follows a source file.

- `Stage0A` (`stage0a.dfy`) models the XState machine of `src/stages/stage0A.ts` as pure
  functions.
  - It has the six phases, the five events and the context (`prospectId`, `followUpTries`).
  - `Step` is one transition. The `incTries` entry action runs when `generateFollowUp` is
    entered. An event with no handler in the current phase changes nothing.
  - `MetaOf` is each phase's `meta`: its prompt and `allowedTools`.
  - `Run` folds `Step` over a sequence of events.
- `Functions` (`functions.dfy`) models `src/functions.ts`.
  - The module globals `CURRENT_PROSPECT_ID` and `stateActor` become the fields of a class
    `Runtime`.
  - The six tool handlers are methods of `Runtime` that send events to a running `Actor`.
  - `functionSpecs` is the table offered to the language model.
  - Pure functions state what one handler call sends (`SentBy`), what it does to the workflow
    state (`ToolEffect`) and what it replies (`ToolReply`). On these, the module proves when the
    follow-up counter stays within its limit and when it does not.
- `Index` (`index.dfy`) models the orchestration of `src/index.ts` without its I/O:
  - the capability lookup (`getStateMetadata`, the instruction text, the tool filter and
    `tool_choice`);
  - the two stream folds (`processStreamResponse`, `handleStream`), proved equal to reference
    functions over the chunk sequence;
  - the dispatch of a tool call and the messages it adds;
  - the subscriber that rewrites history entry 1 on every state change;
  - one round of the chat loop (`Session.Turn`), which keeps the invariant that history
    entry 1 holds the instructions of the current state.

`common.dfy` holds `Option`, `Join`, `Flatten` and the substring predicate `Contains`, with
their small lemmas.

Behaviour follows the code, including where the code differs from the comments and names
around it:
- The `hasMoreFollowUps` guard (`src/stages/stage0A.ts:48-50`) is defined but attached to no
  transition. `NO_RESPONSE` always enters `generateFollowUp`, whatever the counter says.
- Nothing resets `followUpTries`. The counter is only ever increased.
- The only follow-up limit that is enforced is the literal `< 3` in the follow-up handler
  (`src/functions.ts:75`). At 3 or more, that handler calls `archiveProspect()`, which only
  returns a text and sends no event. So in `generateFollowUp`, where the follow-up tool is
  the only one allowed, the workflow stops moving (`Functions.FollowUpLimitStalls`). It does
  not reach `archive`.
- The final phases `moveToStage1` and `archive` each keep one allowed tool, so the model is
  still offered that tool and `tool_choice` stays `"auto"` in them.

## Model

| member | source | states |
|---|---|---|
| Stage0A.ToolNames | src/stages/stage0A.ts:6-12 | the tool names of a tool list, element by element and in order |
| Stage0A.ToolNameInjective | src/stages/stage0A.ts:6-12 | distinct tools have distinct name strings |
| Stage0A.PhaseOfName | src/stages/stage0A.ts:60-131 | the state node a name selects: it has exactly that name, and `None` means no state has that name |
| Stage0A.IsFinal | src/stages/stage0A.ts:113-131 | a final phase handles no event, and every other phase handles `MESSAGE_GENERATED` or `NO_RESPONSE` |
| Stage0A.HasMoreFollowUps | src/stages/stage0A.ts:48-50 | the unused guard admits exactly the counters that one more `incTries` keeps within 3 |
| Stage0A.Target | src/stages/stage0A.ts:60-131 | only `collectFeedback` branches, on exactly the four feedback events; every other handler is `MESSAGE_GENERATED` back to `collectFeedback`; no transition targets its own phase or `generateWarmup` |
| Stage0A.IncTries | src/stages/stage0A.ts:43-45 | `incTries` adds one to `followUpTries` and keeps the prospect id |
| Stage0A.Step | src/stages/stage0A.ts:60-131 | one event: it keeps the prospect id, adds one to the counter exactly when it enters `generateFollowUp`, and changes nothing when the phase has no handler for the event |
| Stage0A.EntersFollowUpIff | src/stages/stage0A.ts:101-102 | the entry action runs exactly when the step goes from another phase into `generateFollowUp` |
| Stage0A.MetaOf | src/stages/stage0A.ts:62-131 | every phase has a non-empty prompt and exactly one allowed tool |
| Stage0A.PromptNamesAllowedTool | src/stages/stage0A.ts:62-131 | each phase's prompt names the tool that phase allows |
| Stage0A.InitialSnapshot | src/stages/stage0A.ts:52-58 | the machine starts in `generateWarmup`, which is not final, with 0 follow-up tries |
| Stage0A.GeneratingPhases | src/stages/stage0A.ts:62-111 | the three generating phases go to `collectFeedback` on `MESSAGE_GENERATED` with the context unchanged, and ignore every other event |
| Stage0A.CollectFeedbackRouting | src/stages/stage0A.ts:74-80 | `collectFeedback` routes each of the four classifications to its target (a follow-up counted for `NO_RESPONSE`) and ignores the rest |
| Stage0A.NoResponseIsUnguarded | src/stages/stage0A.ts:48-50 | `NO_RESPONSE` enters `generateFollowUp` even when `hasMoreFollowUps` is false, and never leads to `archive` |
| Stage0A.FinalIffNoHandler | src/stages/stage0A.ts:113-131 | a phase is final exactly when it handles no event |
| Stage0A.RunOne | src/stages/stage0A.ts:60-131 | running one event is one step |
| Stage0A.RunAppend | src/stages/stage0A.ts:60-131 | running two event sequences one after the other is running their concatenation |
| Stage0A.FinalAbsorbs | src/stages/stage0A.ts:114-131 | no event sequence moves a final snapshot |
| Stage0A.RunKeepsProspectId | src/stages/stage0A.ts:43-45 | no event sequence changes the prospect id |
| Stage0A.RunCountsFollowUps | src/stages/stage0A.ts:100-111 | after any event sequence, the counter equals its start value plus the number of entries into `generateFollowUp` |
| Stage0A.RunTriesMonotone | src/stages/stage0A.ts:43-45 | the counter never decreases along an event sequence: nothing resets it |
| Stage0A.EachToolHasOnePhase | src/stages/stage0A.ts:62-131 | every tool is allowed in exactly one phase |
| Stage0A.FinalPhasesKeepATool | src/stages/stage0A.ts:113-131 | the final phases still allow a tool: `archiveProspect` in `archive` and `moveToStage1` in `moveToStage1` |
| Stage0A.WarmupContextualSilence | src/stages/stage0A.ts:60-111 | warm-up, a positive reply, a contextual message and no response end in `generateFollowUp` with one try counted |
| Stage0A.SecondSilenceFollowsUpAgain | src/stages/stage0A.ts:74-111 | a second `NO_RESPONSE` after a follow-up counts again and returns to `generateFollowUp`, not `archive` |
| Functions.Actor.Start | src/index.ts:36-38 | a started actor is in the initial snapshot and has sent nothing |
| Functions.Actor.Send | src/functions.ts:33 | `send` applies one step and logs the event |
| Functions.ArchiveReply | src/functions.ts:97 | the archive reply names the current prospect id |
| Functions.MoveToStage1Reply | src/functions.ts:105 | the Stage 1 reply names the current prospect id |
| Functions.ClassificationEvent | src/functions.ts:120-122 | the event sent for a classification has that string as its type; only the string `MESSAGE_GENERATED` gives `MESSAGE_GENERATED`; an unrecognized event comes only from a string that names none of the five events |
| Functions.ClassificationReply | src/functions.ts:124-135 | the reply is a category message exactly when the classification is one of the four enum values, and "Invalid classification type" otherwise |
| Functions.Runtime.constructor | src/functions.ts:1-5 | the globals start as `""` and `null` |
| Functions.Runtime.SetCurrentProspectId | src/functions.ts:7-9 | sets the prospect id and keeps the actor |
| Functions.Runtime.SetStateActor | src/functions.ts:11-13 | sets the actor and keeps the prospect id |
| Functions.Runtime.GenerateWarmupMessage | src/functions.ts:19-39 | returns the fixed reply; with an actor, it sends exactly `MESSAGE_GENERATED` and the actor steps on it |
| Functions.Runtime.GenerateContextualMessage | src/functions.ts:41-59 | returns the fixed reply; with an actor, it sends exactly `MESSAGE_GENERATED` and the actor steps on it |
| Functions.Runtime.GenerateFollowUpMessage | src/functions.ts:61-90 | returns the fixed reply; with an actor and fewer than 3 tries it sends `MESSAGE_GENERATED`, with 3 or more it archives, which sends nothing and leaves the snapshot as it was |
| Functions.Runtime.ArchiveProspect | src/functions.ts:92-98 | returns the archive reply for the current id and sends nothing |
| Functions.Runtime.MoveToStage1 | src/functions.ts:100-106 | returns the Stage 1 reply for the current id and sends nothing |
| Functions.Runtime.ClassifyProspectResponse | src/functions.ts:109-136 | without an actor, returns the error and sends nothing; with one, sends the classification as an event, steps on it, and returns the matching reply or "Invalid classification type" |
| Functions.FunctionSpecsAreTheTools | src/functions.ts:138-214 | the spec table has six entries, one per tool, with pairwise distinct names |
| Functions.ClassificationParameter | src/functions.ts:192-213 | only `classifyProspectResponse` requires a parameter: `classification`, whose enum is the four categories |
| Functions.ClassificationEventsAreCategories | src/functions.ts:109-136 | each enum value is sent as one of the four feedback events and gets its own reply |
| Functions.NoResponseOutsideCollectFeedback | src/functions.ts:116-130 | classifying `NO_RESPONSE` outside `collectFeedback` changes no state, although the reply still claims a transition |
| Functions.FollowUpHonoursLimit | src/functions.ts:68-85 | in `generateFollowUp`, the follow-up tool returns to `collectFeedback` below 3 tries and leaves the state unchanged at 3 or more |
| Functions.HandlersSendAtMostOne | src/functions.ts:19-106 | each handler sends at most one event and keeps the prospect id; the archive and Stage 1 handlers change nothing |
| Functions.PermittedCallKeepsBound | src/functions.ts:61-90 | a call to the tool the current phase allows keeps the counter within 3 (and within 2 outside `generateFollowUp`) |
| Functions.PermittedCallsKeepBound | src/functions.ts:61-90 | any sequence of permitted calls keeps that bound |
| Functions.PermittedSessionWithinLimit | src/functions.ts:75 | from the initial state, permitted calls never take the counter above 3 |
| Functions.UnrestrictedCallsPassLimit | src/functions.ts:26-35 | handlers do not check the phase: a warm-up call in `generateFollowUp` and then `NO_RESPONSE` take the counter from 3 to 4 |
| Functions.FollowUpLimitStalls | src/functions.ts:75-84 | in `generateFollowUp` with 3 or more tries, permitted calls leave the state unchanged forever |
| Index.GetStateMetadata | src/index.ts:76-80 | the meta of the named state node, or an empty prompt and no tools for an unknown name |
| Index.Instructions | src/index.ts:83-111 | the text begins with the prospect line; what else it contains is stated by `Index.InstructionsInCollectFeedback`, `Index.InstructionsListTools` and `Index.InstructionsShowPrompt` |
| Index.InstructionsInCollectFeedback | src/index.ts:93-102 | in `collectFeedback` the instructions carry the classification guide |
| Index.InstructionsListTools | src/index.ts:103-107 | in every other state they list the allowed tools joined by ", " |
| Index.InstructionsNameTheTool | src/index.ts:103-107 | for a phase other than `collectFeedback`, that list is its one allowed tool |
| Index.InstructionsShowPrompt | src/index.ts:87-91 | the instructions always contain the prospect id and the state's prompt |
| Index.ToolChoiceFor | src/index.ts:277 | `"auto"` exactly when some tool is allowed; `"none"` only when no function of the table is offered |
| Index.OfferedTools | src/index.ts:271-276 | an entry is offered exactly when it is in the table and its name is allowed; nothing is added |
| Index.OfferedToolsKeepOrder | src/index.ts:271-276 | filtering distributes over concatenation, so the table's order is kept |
| Index.OfferedSingleTool | src/index.ts:271-276 | with one allowed tool and unique names, exactly the entry with that name is offered |
| Index.OfferedNone | src/index.ts:271-276 | entries whose name is not allowed are not offered |
| Index.OfferedInEachPhase | src/index.ts:250-277 | in every phase, final ones too, exactly the allowed function is offered and `tool_choice` is `"auto"` |
| Index.UnknownStateOffersNothing | src/index.ts:76-79 | an unknown state value offers no tools and sets `tool_choice` to `"none"` |
| Index.OfferedNothingAllowed | src/index.ts:276-277 | with no allowed tools, nothing is offered |
| Index.NonEmptyContents | src/index.ts:130-136 | `handleStream` keeps only non-empty contents |
| Index.AssembledToolCallSnoc | src/index.ts:229-243 | one more chunk either starts the tool call from its delta, or keeps id and name and appends only its argument fragment |
| Index.JoinedContentsAreContentText | src/index.ts:124-139 | joining the kept contents gives all the stream's text in order |
| Index.NoToolCallIffNoDelta | src/index.ts:220-245 | no tool call is assembled exactly when no chunk carries a tool-call delta |
| Index.FirstDeltaDecides | src/index.ts:229-243 | the first chunk with a delta fixes id and name; the arguments are its fragment followed by all later fragments |
| Index.ProcessStreamResponse | src/index.ts:212-248 | the loop returns all text content and the tool call the stream describes |
| Index.HandleStream | src/index.ts:124-139 | the loop returns all text content of the stream |
| Index.Dispatch | src/index.ts:163-185 | a name selects the handler with that name, and no handler when no tool has that name |
| Index.DispatchRoundTrip | src/index.ts:163-181 | every tool name dispatches to its own handler |
| Index.RefreshedMessages | src/index.ts:44-54 | the subscriber replaces only entry 1, and only when there are more than one messages; the length is kept |
| Index.RefreshIdempotent | src/index.ts:44-54 | refreshing with the instructions already in place changes nothing |
| Index.Session.Start | src/index.ts:32-122 | start-up (lines 32-41) sets the prospect id, starts the actor in the initial snapshot and hands it to the handlers; the history (lines 113-122) begins with the persona and the initial state's instructions |
| Index.IsExit | src/index.ts:261 | the input ends the loop exactly when it is four letters spelling "exit" in any mix of cases |
| Index.Session.OnStateChange | src/index.ts:44-54 | the subscriber rewrites entry 1 with the current instructions |
| Index.Session.HandleToolCall | src/index.ts:146-210 | an unknown name changes nothing and yields no messages; a known name runs its handler once, refreshes entry 1, and yields the tool-call entry, the reply and the follow-up text |
| Index.Session.RunHandler | src/index.ts:163-181 | a known tool's handler runs once on the shared actor: the snapshot becomes its effect, the log gains exactly the events it sends, and the reply is its reply |
| Index.Session.Turn | src/index.ts:250-296 | "exit" stops; otherwise the request offers the tools of the state at the start of the turn, and the history gains the user input and then the tool-call messages or the non-empty text; entry 1 always holds the current instructions |

## Left out

- The language-model requests (`openai.chat.completions.create`), the API key, the model name and the temperature: their streams are parameters of `Index.Session.Turn` and `Index.Session.HandleToolCall`.
- Console and stdout output, `console.log` and the readline prompt: output only.
- The recursion of `startChat` through `rl.question`: one round is `Index.Session.Turn`, so the loop is a caller's repetition of it. `rl.close()` and `process.exit` are represented by `continues == false`.
- The 100 ms `setTimeout` before each handler's `send` and the 6 s wait in `handleToolCall`: sends happen at once in the model. The subscriber runs after each handler call, before the follow-up stream is read, so the model does not capture a send that lands later. For the same reason, the follow-up request's own message list is not modelled.
- Index.Session.HandleToolCall: does not decode `toolCall.function.arguments` with `JSON.parse`. The `classification` field is a parameter, so malformed JSON and a missing field are not modelled.
- Only `choices[0]` and `tool_calls[0]` of a chunk are modelled, because those are the only ones the code reads.
- Index.IsExit: lower-casing covers the ASCII letters only, because Unicode case mapping is out of scope.
- `followUpTries` is a `nat`: JavaScript numbers cannot reach their precision limit through one-at-a-time increments in a session.
- The XState library itself (`setup`, `createActor`, `subscribe`, the `input` option, the snapshot `value`) is modelled only by its semantics here: one state value, entry actions on entering, and unhandled events ignored. The machine ignores the `input` option, so the context starts with `"<<set-by-caller>>"`.
- `src/stages/stage0A.types.ts`, `src/prospectData.ts`, `src/tokenTracker.ts`, `src/openAiRequest.ts`, `src/openAIClient.ts` and `src/terminal.ts` are not part of this model. They are unused by the core, or they are I/O. Their `MAX_FOLLOW_UP_ATTEMPTS` constant is never read by the core.
- The unused message texts in the generating handlers (`warmupMessage` and the other two) are not modelled, because their values are discarded.
