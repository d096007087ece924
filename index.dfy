/**
 * The orchestration of `src/index.ts` without its I/O: the capability resolution of the current
 * state (meta lookup, instruction text, offered tools and `tool_choice`), the two folds that
 * rebuild text and a tool call from streamed chunks, the dispatch of a tool call to its
 * handler and the messages it appends, and the refresh of the state-instruction message on
 * every state change. Streams are given as sequences of chunks; the language-model requests
 * that produce them are not modelled.
 */
module Index {
  import opened Common
  import opened Stage0A
  import opened Functions

  // ---------------------------------------------------------------------------------------
  // Capability resolution

  /**
   * `getStateMetadata`: the `meta` of the state node named by the snapshot's value, or an
   * empty prompt and no tools when there is no such node.
   */
  function GetStateMetadata(value: string): (m: Meta)
    ensures forall p :: PhaseName(p) == value ==> m == MetaOf(p)
    ensures PhaseOfName(value).None? ==> m == Meta("", [])
  {
    match PhaseOfName(value)
    case Some(p) => MetaOf(p)
    case None => Meta("", [])
  }

  const ClassificationSection :=
    "\nCLASSIFICATION REQUIRED:\nWhen user tells you about the prospect's response, you must classify it using the classifyProspectResponse function with one of these classifications:\n- ASKED_ABOUT_BUSINESS: If they explicitly asked about your business/work\n- POSITIVE_OR_NEUTRAL: If they engaged positively but didn't ask about business\n- NO_RESPONSE: If there was no response from the prospect\n- NEGATIVE_RESPONSE: If they responded negatively\n"

  const ToolsLine := "The current state allows these tools: "

  const ActionsClosing := "\nUse the appropriate tool based on the current state instructions.\n"

  const InstructionsClosing :=
    "\n\nPlease help user understand the current situation and take appropriate action based on the state instructions above."

  /** The section listing the allowed tools, joined by ", ". */
  function ActionsSection(allowed: seq<Tool>): string {
    "\nACTIONS AVAILABLE:\n" + ToolList(allowed) + ActionsClosing
  }

  /** "The current state allows these tools: " followed by the tool names joined by ", ". */
  function ToolList(allowed: seq<Tool>): string {
    ToolsLine + Join(ToolNames(allowed), ", ")
  }

  /** The state-dependent section: the classification guide in `collectFeedback`, the tool list elsewhere. */
  function StateSection(value: string, allowed: seq<Tool>): string {
    if value == "collectFeedback" then ClassificationSection else ActionsSection(allowed)
  }

  /**
   * `getCurrentStateInstructions` for prospect `prospectId` and state value `value`. What it
   * contains is stated by `InstructionsInCollectFeedback`, `InstructionsListTools` and
   * `InstructionsShowPrompt`.
   */
  function Instructions(prospectId: string, value: string): (r: string)
    ensures "Current Prospect: " + prospectId <= r
  {
    var meta := GetStateMetadata(value);
    InstructionsHead(prospectId, value) + meta.prompt + "\n\n"
      + StateSection(value, meta.allowedTools) + InstructionsClosing
  }

  /** The lines before the prompt. */
  function InstructionsHead(prospectId: string, value: string): string {
    "Current Prospect: " + prospectId + StateLines(value)
  }

  /** The rest of the lines before the prompt. */
  function StateLines(value: string): string {
    " (John Doe)\nCurrent State: " + value + "\n\nCURRENT INSTRUCTIONS:\n"
  }

  /** In `collectFeedback` the instructions carry the classification guide. */
  lemma InstructionsInCollectFeedback(prospectId: string)
    ensures Contains(Instructions(prospectId, "collectFeedback"), ClassificationSection)
  {
    var meta := GetStateMetadata("collectFeedback");
    ContainsMiddle(InstructionsHead(prospectId, "collectFeedback") + meta.prompt + "\n\n",
                   ClassificationSection, InstructionsClosing);
  }

  /** In every other state they list the allowed tools, joined by ", ". */
  lemma InstructionsListTools(prospectId: string, value: string)
    requires value != "collectFeedback"
    ensures Contains(Instructions(prospectId, value), ToolList(GetStateMetadata(value).allowedTools))
  {
    var meta := GetStateMetadata(value);
    var t := ToolList(meta.allowedTools);
    ContainsMiddle("\nACTIONS AVAILABLE:\n", t, ActionsClosing);
    ContainsPrepend(InstructionsHead(prospectId, value) + meta.prompt + "\n\n", ActionsSection(meta.allowedTools), t);
    ContainsAppend(InstructionsHead(prospectId, value) + meta.prompt + "\n\n" + ActionsSection(meta.allowedTools),
                   InstructionsClosing, t);
  }

  /** For a phase other than `collectFeedback` that list is its one allowed tool. */
  lemma InstructionsNameTheTool(prospectId: string, p: Phase)
    requires p != CollectFeedback
    ensures Contains(Instructions(prospectId, PhaseName(p)), ToolsLine + ToolName(AllowedTool(p)))
  {
    InstructionsListTools(prospectId, PhaseName(p));
    assert ToolNames([AllowedTool(p)]) == [ToolName(AllowedTool(p))];
    assert ToolList([AllowedTool(p)]) == ToolsLine + ToolName(AllowedTool(p));
  }

  /** The instructions always carry the prospect id and the state's prompt. */
  lemma InstructionsShowPrompt(prospectId: string, value: string)
    ensures Contains(Instructions(prospectId, value), prospectId)
    ensures Contains(Instructions(prospectId, value), GetStateMetadata(value).prompt)
  {
    var meta := GetStateMetadata(value);
    var head := InstructionsHead(prospectId, value);
    var section := StateSection(value, meta.allowedTools);
    ContainsMiddle("Current Prospect: ", prospectId, StateLines(value));
    ContainsAppend(head, meta.prompt, prospectId);
    ContainsMiddle(head, meta.prompt, "");
    assert head + meta.prompt + "" == head + meta.prompt;
    ContainsAppend(head + meta.prompt, "\n\n", prospectId);
    ContainsAppend(head + meta.prompt, "\n\n", meta.prompt);
    ContainsAppend(head + meta.prompt + "\n\n", section, prospectId);
    ContainsAppend(head + meta.prompt + "\n\n", section, meta.prompt);
    ContainsAppend(head + meta.prompt + "\n\n" + section, InstructionsClosing, prospectId);
    ContainsAppend(head + meta.prompt + "\n\n" + section, InstructionsClosing, meta.prompt);
  }

  /** `tool_choice` of the request. */
  datatype ToolChoice = Auto | NoTool

  /**
   * `"auto"` when some tool is allowed, `"none"` otherwise; `"none"` is chosen only when no
   * function of the table is offered.
   */
  function ToolChoiceFor(allowed: seq<Tool>): (r: ToolChoice)
    ensures r == Auto <==> allowed != []
    ensures r == NoTool ==> OfferedTools(FunctionSpecs, allowed) == []
  {
    if |allowed| > 0 then Auto else OfferedNothingAllowed(FunctionSpecs); NoTool
  }

  /**
   * The tools offered to the model: the entries of `specs` whose name is among the allowed
   * tools (`availableTools.includes(tool.function.name)`), in the order of `specs`.
   */
  function OfferedTools(specs: seq<FunctionSpec>, allowed: seq<Tool>): (r: seq<FunctionSpec>)
    ensures |r| <= |specs|
    ensures forall x :: x in r <==> x in specs && x.name in ToolNames(allowed)
  {
    if specs == [] then []
    else (if specs[0].name in ToolNames(allowed) then [specs[0]] else [])
         + OfferedTools(specs[1..], allowed)
  }

  /** Filtering keeps the order of the table: it distributes over concatenation. */
  lemma {:induction false} OfferedToolsKeepOrder(a: seq<FunctionSpec>, b: seq<FunctionSpec>, allowed: seq<Tool>)
    ensures OfferedTools(a + b, allowed) == OfferedTools(a, allowed) + OfferedTools(b, allowed)
  {
    if a == [] {
      assert a + b == b;
    } else {
      assert (a + b)[1..] == a[1..] + b;
      OfferedToolsKeepOrder(a[1..], b, allowed);
    }
  }

  /** With one allowed tool and distinct names, exactly the entry of that name is offered. */
  lemma {:induction false} OfferedSingleTool(specs: seq<FunctionSpec>, t: Tool, i: nat)
    requires i < |specs| && specs[i].name == ToolName(t)
    requires forall j :: 0 <= j < |specs| && j != i ==> specs[j].name != ToolName(t)
    ensures OfferedTools(specs, [t]) == [specs[i]]
  {
    assert ToolNames([t]) == [ToolName(t)];
    if i == 0 {
      OfferedNone(specs[1..], t);
    } else {
      OfferedSingleTool(specs[1..], t, i - 1);
    }
  }

  /** Entries with another name are not offered. */
  lemma {:induction false} OfferedNone(specs: seq<FunctionSpec>, t: Tool)
    requires forall j :: 0 <= j < |specs| ==> specs[j].name != ToolName(t)
    ensures OfferedTools(specs, [t]) == []
  {
    assert ToolNames([t]) == [ToolName(t)];
    if specs != [] {
      OfferedNone(specs[1..], t);
    }
  }

  /**
   * In every phase, final ones included, exactly one function is offered, the one its meta
   * allows, and `tool_choice` is `"auto"`.
   */
  lemma OfferedInEachPhase(p: Phase)
    ensures var offered := OfferedTools(FunctionSpecs, GetStateMetadata(PhaseName(p)).allowedTools);
            |offered| == 1 && offered[0].name == ToolName(AllowedTool(p))
    ensures ToolChoiceFor(GetStateMetadata(PhaseName(p)).allowedTools) == Auto
  {
    assert GetStateMetadata(PhaseName(p)) == MetaOf(p);
    OfferedForTool(AllowedTool(p));
  }

  /** Offering a single tool yields exactly the table entry of that name. */
  lemma OfferedForTool(t: Tool)
    ensures var offered := OfferedTools(FunctionSpecs, [t]);
            |offered| == 1 && offered[0].name == ToolName(t)
  {
    FunctionSpecsAreTheTools();
    var i := match t
      case GenerateWarmupMessage => 0
      case GenerateContextualMessage => 1
      case GenerateFollowUpMessage => 2
      case ArchiveProspect => 3
      case MoveToStage1 => 4
      case ClassifyProspectResponse => 5;
    assert SpecOrder[i] == t;
    forall j | 0 <= j < |FunctionSpecs| && j != i
      ensures FunctionSpecs[j].name != ToolName(t)
    {
      ToolNameInjective(SpecOrder[j], t);
    }
    OfferedSingleTool(FunctionSpecs, t, i);
  }

  /** A state value with no state node offers no tools and sets `tool_choice` to `"none"`. */
  lemma UnknownStateOffersNothing(value: string)
    requires PhaseOfName(value).None?
    ensures OfferedTools(FunctionSpecs, GetStateMetadata(value).allowedTools) == []
    ensures ToolChoiceFor(GetStateMetadata(value).allowedTools) == NoTool
  {
    OfferedNothingAllowed(FunctionSpecs);
  }

  /** With no allowed tools nothing is offered. */
  lemma {:induction false} OfferedNothingAllowed(specs: seq<FunctionSpec>)
    ensures OfferedTools(specs, []) == []
  {
    if specs != [] {
      OfferedNothingAllowed(specs[1..]);
    }
  }

  /** The parts of the chat request that depend on the state. */
  datatype Request = Request(messages: seq<Message>, tools: seq<FunctionSpec>, toolChoice: ToolChoice)

  // ---------------------------------------------------------------------------------------
  // Streams

  /** `delta.tool_calls[0]` of a chunk: each field may be missing. */
  datatype ToolCallDelta = ToolCallDelta(id: Option<string>, name: Option<string>, arguments: Option<string>)

  /** `choices[0].delta` of a chunk: optional text content and an optional first tool-call delta. */
  datatype Chunk = Chunk(content: Option<string>, toolCall: Option<ToolCallDelta>)

  /** An assembled tool call (of type `"function"`). */
  datatype ToolCall = ToolCall(id: string, name: string, arguments: string)

  /** `chunk.choices[0]?.delta?.content || ""`. */
  function ContentOf(c: Chunk): string {
    c.content.GetOr("")
  }

  /** The arguments fragment a chunk carries, `""` when it carries none. */
  function FragmentOf(c: Chunk): string {
    match c.toolCall
    case Some(d) => d.arguments.GetOr("")
    case None => ""
  }

  /** All text content of a stream, in order. */
  function ContentText(cs: seq<Chunk>): string {
    if cs == [] then "" else ContentOf(cs[0]) + ContentText(cs[1..])
  }

  /** All argument fragments of a stream, in order. */
  function FragmentText(cs: seq<Chunk>): string {
    if cs == [] then "" else FragmentOf(cs[0]) + FragmentText(cs[1..])
  }

  /** The non-empty contents of a stream, in order: what `handleStream` pushes. */
  function NonEmptyContents(cs: seq<Chunk>): (r: seq<string>)
    ensures forall x :: x in r ==> x != ""
  {
    if cs == [] then []
    else (if ContentOf(cs[0]) != "" then [ContentOf(cs[0])] else []) + NonEmptyContents(cs[1..])
  }

  /**
   * The tool call a stream describes: id and name from the first chunk that carries a
   * tool-call delta (missing ones become ""), and its arguments followed by every later
   * fragment. `None` when no chunk carries one.
   */
  function AssembledToolCall(cs: seq<Chunk>): Option<ToolCall> {
    if cs == [] then None
    else match cs[0].toolCall
      case None => AssembledToolCall(cs[1..])
      case Some(d) => Some(ToolCall(d.id.GetOr(""), d.name.GetOr(""), d.arguments.GetOr("") + FragmentText(cs[1..])))
  }

  lemma {:induction false} ContentTextSnoc(cs: seq<Chunk>, c: Chunk)
    ensures ContentText(cs + [c]) == ContentText(cs) + ContentOf(c)
  {
    if cs == [] {
      assert [c][1..] == [];
    } else {
      assert (cs + [c])[1..] == cs[1..] + [c];
      ContentTextSnoc(cs[1..], c);
    }
  }

  lemma {:induction false} FragmentTextSnoc(cs: seq<Chunk>, c: Chunk)
    ensures FragmentText(cs + [c]) == FragmentText(cs) + FragmentOf(c)
  {
    if cs == [] {
      assert [c][1..] == [];
    } else {
      assert (cs + [c])[1..] == cs[1..] + [c];
      FragmentTextSnoc(cs[1..], c);
    }
  }

  lemma {:induction false} NonEmptyContentsSnoc(cs: seq<Chunk>, c: Chunk)
    ensures NonEmptyContents(cs + [c])
         == NonEmptyContents(cs) + (if ContentOf(c) != "" then [ContentOf(c)] else [])
  {
    var last := if ContentOf(c) != "" then [ContentOf(c)] else [];
    if cs == [] {
      assert [c][1..] == [];
      assert NonEmptyContents([c]) == last + [];
    } else {
      var head := if ContentOf(cs[0]) != "" then [ContentOf(cs[0])] else [];
      assert (cs + [c])[1..] == cs[1..] + [c];
      assert NonEmptyContents(cs + [c]) == head + NonEmptyContents(cs[1..] + [c]);
      NonEmptyContentsSnoc(cs[1..], c);
      assert head + (NonEmptyContents(cs[1..]) + last) == (head + NonEmptyContents(cs[1..])) + last;
    }
  }

  /**
   * One more chunk: without a tool call so far, the chunk's delta (if any) starts one; with
   * one, its id and name stay and only the chunk's fragment is appended.
   */
  lemma {:induction false} AssembledToolCallSnoc(cs: seq<Chunk>, c: Chunk)
    ensures AssembledToolCall(cs).Some? ==>
              AssembledToolCall(cs + [c])
              == Some(AssembledToolCall(cs).value.(arguments := AssembledToolCall(cs).value.arguments + FragmentOf(c)))
    ensures AssembledToolCall(cs).None? ==>
              AssembledToolCall(cs + [c])
              == (match c.toolCall
                  case None => None
                  case Some(d) => Some(ToolCall(d.id.GetOr(""), d.name.GetOr(""), d.arguments.GetOr(""))))
  {
    if cs == [] {
      assert [c][1..] == [];
      assert FragmentText([c][1..]) == "";
      match c.toolCall {
        case Some(d) => assert d.arguments.GetOr("") + "" == d.arguments.GetOr("");
        case None =>
      }
    } else {
      assert (cs + [c])[1..] == cs[1..] + [c];
      FragmentTextSnoc(cs[1..], c);
      match cs[0].toolCall {
        case Some(d) =>
          var a := d.arguments.GetOr("");
          assert a + (FragmentText(cs[1..]) + FragmentOf(c)) == (a + FragmentText(cs[1..])) + FragmentOf(c);
        case None =>
          AssembledToolCallSnoc(cs[1..], c);
      }
    }
  }

  /** `handleStream` returns the same text as `processStreamResponse` accumulates. */
  lemma {:induction false} JoinedContentsAreContentText(cs: seq<Chunk>)
    ensures Join(NonEmptyContents(cs), "") == ContentText(cs)
  {
    JoinEmptySeparator(NonEmptyContents(cs));
    FlattenNonEmpty(cs);
  }

  lemma {:induction false} FlattenNonEmpty(cs: seq<Chunk>)
    ensures Flatten(NonEmptyContents(cs)) == ContentText(cs)
  {
    if cs != [] {
      var head := if ContentOf(cs[0]) != "" then [ContentOf(cs[0])] else [];
      FlattenAppend(head, NonEmptyContents(cs[1..]));
      FlattenNonEmpty(cs[1..]);
      if head == [] {
        assert ContentOf(cs[0]) == "";
      } else {
        assert head[1..] == [];
      }
    }
  }

  /** No tool call is assembled exactly when no chunk carries a tool-call delta. */
  lemma {:induction false} NoToolCallIffNoDelta(cs: seq<Chunk>)
    ensures AssembledToolCall(cs).None? <==> forall i :: 0 <= i < |cs| ==> cs[i].toolCall.None?
  {
    if cs != [] {
      NoToolCallIffNoDelta(cs[1..]);
      assert forall i :: 1 <= i < |cs| ==> cs[i] == cs[1..][i - 1];
    }
  }

  /**
   * With `k` the first chunk carrying a delta, the tool call takes that chunk's id and name
   * (later ones are ignored) and its arguments followed by all later fragments.
   */
  lemma {:induction false} FirstDeltaDecides(cs: seq<Chunk>, k: nat)
    requires k < |cs| && cs[k].toolCall.Some?
    requires forall j :: 0 <= j < k ==> cs[j].toolCall.None?
    ensures var d := cs[k].toolCall.value;
            AssembledToolCall(cs)
            == Some(ToolCall(d.id.GetOr(""), d.name.GetOr(""), d.arguments.GetOr("") + FragmentText(cs[k + 1..])))
  {
    if k > 0 {
      assert cs[1..][k - 1] == cs[k];
      assert cs[1..][k..] == cs[k + 1..];
      FirstDeltaDecides(cs[1..], k - 1);
    }
  }

  /**
   * `processStreamResponse`: folds the chunks into the accumulated text and the tool call.
   */
  method ProcessStreamResponse(response: seq<Chunk>) returns (accumulatedContent: string, toolCall: Option<ToolCall>)
    ensures accumulatedContent == ContentText(response)
    ensures toolCall == AssembledToolCall(response)
  {
    accumulatedContent := "";
    toolCall := None;
    var i := 0;
    while i < |response|
      invariant 0 <= i <= |response|
      invariant accumulatedContent == ContentText(response[..i])
      invariant toolCall == AssembledToolCall(response[..i])
    {
      var chunk := response[i];
      var content := chunk.content.GetOr("");
      if content != "" {
        accumulatedContent := accumulatedContent + content;
      } else {
        assert accumulatedContent + ContentOf(chunk) == accumulatedContent;
      }
      match chunk.toolCall {
        case Some(current) =>
          if toolCall.None? {
            toolCall := Some(ToolCall(current.id.GetOr(""), current.name.GetOr(""), current.arguments.GetOr("")));
          } else if current.arguments.GetOr("") != "" {
            toolCall := Some(toolCall.value.(arguments := toolCall.value.arguments + current.arguments.value));
          } else {
            assert toolCall.value.arguments + FragmentOf(chunk) == toolCall.value.arguments;
          }
        case None =>
          assert toolCall.Some? ==> toolCall.value.arguments + FragmentOf(chunk) == toolCall.value.arguments;
      }
      assert response[..i + 1] == response[..i] + [chunk];
      ContentTextSnoc(response[..i], chunk);
      AssembledToolCallSnoc(response[..i], chunk);
      i := i + 1;
    }
    assert response[..i] == response;
  }

  /** `handleStream`: collects the non-empty contents and joins them. */
  method HandleStream(stream: seq<Chunk>) returns (text: string)
    ensures text == ContentText(stream)
  {
    var chunks: seq<string> := [];
    var i := 0;
    while i < |stream|
      invariant 0 <= i <= |stream|
      invariant chunks == NonEmptyContents(stream[..i])
    {
      var content := stream[i].content.GetOr("");
      if content != "" {
        chunks := chunks + [content];
      }
      assert stream[..i + 1] == stream[..i] + [stream[i]];
      NonEmptyContentsSnoc(stream[..i], stream[i]);
      i := i + 1;
    }
    assert stream[..i] == stream;
    text := Join(chunks, "");
    JoinedContentsAreContentText(stream);
  }

  // ---------------------------------------------------------------------------------------
  // Chat history and tool calls

  /** The chat messages the orchestrator keeps. */
  datatype Message =
    | SystemMessage(content: string)
    | UserMessage(content: string)
    | AssistantToolCalls(toolCalls: seq<ToolCall>)
    | ToolMessage(toolCallId: string, content: string)
    | AssistantMessage(content: string)

  /** `ToolCallResult`: the messages to append and the follow-up response. */
  datatype ToolCallResult = ToolCallResult(messages: seq<Message>, response: Option<string>)

  /** The `switch` on the tool name: the handler a name selects, if any. */
  function Dispatch(name: string): (r: Option<Tool>)
    ensures r.Some? ==> ToolName(r.value) == name
    ensures r.None? ==> forall t :: ToolName(t) != name
  {
    match name
    case "generateWarmupMessage" => Some(GenerateWarmupMessage)
    case "generateContextualMessage" => Some(GenerateContextualMessage)
    case "generateFollowUpMessage" => Some(GenerateFollowUpMessage)
    case "archiveProspect" => Some(ArchiveProspect)
    case "moveToStage1" => Some(Tool.MoveToStage1)
    case "classifyProspectResponse" => Some(ClassifyProspectResponse)
    case _ => None
  }

  /** Every tool name dispatches to its own handler. */
  lemma DispatchRoundTrip(t: Tool)
    ensures Dispatch(ToolName(t)) == Some(t)
  {
    ToolNameInjective(Dispatch(ToolName(t)).value, t);
  }

  /** The subscriber's update: only entry 1 is replaced, and only when it exists. */
  function RefreshedMessages(msgs: seq<Message>, instructions: string): (r: seq<Message>)
    ensures |r| == |msgs|
    ensures |msgs| > 1 ==> r[1] == SystemMessage(instructions)
    ensures forall i :: 0 <= i < |msgs| && i != 1 ==> r[i] == msgs[i]
  {
    if |msgs| > 1 then msgs[1 := SystemMessage(instructions)] else msgs
  }

  /** Refreshing with the instructions already in place changes nothing. */
  lemma RefreshIdempotent(msgs: seq<Message>, instructions: string)
    requires |msgs| > 1 && msgs[1] == SystemMessage(instructions)
    ensures RefreshedMessages(msgs, instructions) == msgs
  {
  }

  /** ASCII lower-casing of one character. */
  function LowerAscii(c: char): char {
    if 'A' <= c <= 'Z' then (c as int + 32) as char else c
  }

  /**
   * `input.toLowerCase() === "exit"`, with lower-casing restricted to ASCII letters: exactly
   * the four-letter inputs whose letters spell "exit" in any mix of cases.
   */
  predicate IsExit(input: string): (b: bool)
    ensures b <==> |input| == 4 && forall i :: 0 <= i < 4 ==> input[i] == "exit"[i] || input[i] == "EXIT"[i]
  {
    |input| == 4 && forall i :: 0 <= i < 4 ==> LowerAscii(input[i]) == "exit"[i]
  }

  /** The persona system prompt. */
  const StevePersona :=
    "You are Steve, an AI assistant helping salespeople manage their prospects. You are professional, focused, and excellent at understanding prospect responses and suggesting appropriate next steps.\n\nYour primary responsibilities are:\n1. Help salespeople interpret prospect responses and decide on next actions\n2. Generate messages for the salesperson to send to prospects\n3. Maintain a natural, professional conversation flow\n4. Guide prospects towards asking about the business while keeping engagement genuine\n\nYou communicate clearly with salespeople about:\n- What state the prospect is in\n- What the next steps should be\n- Why you recommend certain actions\n\nYou are direct and practical in your advice, but always maintain a helpful and supportive tone. \nBefore making any function calls, always first suggest the action in natural language.\nNever trigger function calls without a preceding suggestion message.\nTriiger appropiate function calls if user asks for it or if you think it is appropriate."

  const ProspectId := "PROSPECT_JOHN_DOE"

  /**
   * One chat session: the runtime globals, the actor they share with the orchestrator, and
   * the message history whose entry 1 is kept equal to the current state's instructions.
   */
  class Session {
    const runtime: Runtime
    const actor: Actor
    const prospectId: string
    var messages: seq<Message>

    /** The instructions for the actor's current state. */
    function CurrentInstructions(): string
      reads this, actor
    {
      Instructions(prospectId, PhaseName(actor.snapshot.phase))
    }

    ghost predicate Valid()
      reads this, runtime, actor
    {
      runtime.stateActor == actor && runtime.currentProspectId == prospectId &&
      |messages| >= 2 && messages[1] == SystemMessage(CurrentInstructions())
    }

    /**
     * Module start-up: set the prospect id, start the actor, hand it to the handlers, and
     * begin the history with the persona and the initial instructions.
     */
    constructor Start()
      ensures Valid() && fresh(runtime) && fresh(actor)
      ensures prospectId == ProspectId && actor.snapshot == Initial
      ensures messages == [SystemMessage(StevePersona), SystemMessage(Instructions(ProspectId, "generateWarmup"))]
    {
      var rt := new Runtime();
      rt.SetCurrentProspectId(ProspectId);
      var a := new Actor.Start();
      rt.SetStateActor(a);
      runtime := rt;
      actor := a;
      prospectId := ProspectId;
      messages := [SystemMessage(StevePersona), SystemMessage(Instructions(ProspectId, PhaseName(Initial.phase)))];
    }

    /** The `actor.subscribe` callback: if there are more than one messages, replace entry 1. */
    method OnStateChange()
      modifies this
      ensures messages == RefreshedMessages(old(messages), CurrentInstructions())
    {
      if |messages| > 1 {
        messages := messages[1 := SystemMessage(CurrentInstructions())];
      }
    }

    /**
     * `handleToolCall`. An unknown name calls no handler and yields no messages. A known name
     * calls its handler once; the state change refreshes entry 1 of the history; the result
     * holds the assistant tool-call entry, the tool entry with the handler's reply, and the
     * follow-up text (the contents of `followUp`), which is also the response.
     * `classification` is the `classification` field of the decoded arguments.
     */
    method HandleToolCall(toolCall: ToolCall, classification: string, followUp: seq<Chunk>)
      returns (result: ToolCallResult)
      requires Valid()
      modifies this, actor
      ensures Valid()
      ensures Dispatch(toolCall.name).None? ==>
                result == ToolCallResult([], None) &&
                messages == old(messages) && actor.snapshot == old(actor.snapshot) &&
                actor.sent == old(actor.sent)
      ensures Dispatch(toolCall.name).Some? ==>
                var t := Dispatch(toolCall.name).value;
                var reply := ToolReply(prospectId, t, classification);
                actor.snapshot == ToolEffect(old(actor.snapshot), t, classification) &&
                actor.sent == old(actor.sent) + SentBy(old(actor.snapshot), t, classification) &&
                messages == RefreshedMessages(old(messages), CurrentInstructions()) &&
                result.messages == [AssistantToolCalls([toolCall]), ToolMessage(toolCall.id, reply),
                                    AssistantMessage(ContentText(followUp))] &&
                result.response == Some(ContentText(followUp))
    {
      var tool := Dispatch(toolCall.name);
      if tool.None? {
        return ToolCallResult([], None);
      }
      var functionResponse := RunHandler(tool.value, classification);
      OnStateChange();
      var followUpContent := HandleStream(followUp);
      result := ToolCallResult(
        [AssistantToolCalls([toolCall]), ToolMessage(toolCall.id, functionResponse),
         AssistantMessage(followUpContent)],
        Some(followUpContent));
    }

    /** The `switch` body for a known tool: its handler runs once on the shared actor. */
    method RunHandler(t: Tool, classification: string) returns (reply: string)
      requires Valid()
      modifies actor
      ensures actor.snapshot == ToolEffect(old(actor.snapshot), t, classification)
      ensures actor.sent == old(actor.sent) + SentBy(old(actor.snapshot), t, classification)
      ensures reply == ToolReply(prospectId, t, classification)
    {
      ghost var before := actor.snapshot;
      match t {
        case GenerateWarmupMessage =>
          reply := runtime.GenerateWarmupMessage();
          RunOne(before, MessageGenerated);
        case GenerateContextualMessage =>
          reply := runtime.GenerateContextualMessage();
          RunOne(before, MessageGenerated);
        case GenerateFollowUpMessage =>
          reply := runtime.GenerateFollowUpMessage();
          RunOne(before, MessageGenerated);
        case ArchiveProspect =>
          reply := runtime.ArchiveProspect();
        case MoveToStage1 =>
          reply := runtime.MoveToStage1();
        case ClassifyProspectResponse =>
          reply := runtime.ClassifyProspectResponse(classification);
          RunOne(before, ClassificationEvent(classification));
      }
    }

    /**
     * One round of `startChat` after the user typed `input`: "exit" ends the loop; otherwise
     * the input is appended, the request offers the current state's tools, and either the
     * tool call's messages or the non-empty assistant text are appended. `response` and
     * `followUp` are the two streams the model returns.
     */
    method Turn(input: string, response: seq<Chunk>, classification: string, followUp: seq<Chunk>)
      returns (continues: bool, request: Option<Request>)
      requires Valid()
      modifies this, actor
      ensures Valid()
      ensures continues == !IsExit(input)
      ensures !continues ==> request == None && messages == old(messages) && actor.snapshot == old(actor.snapshot)
      ensures continues ==>
                var allowed := GetStateMetadata(PhaseName(old(actor.snapshot).phase)).allowedTools;
                request == Some(Request(old(messages) + [UserMessage(input)],
                                        OfferedTools(FunctionSpecs, allowed), ToolChoiceFor(allowed)))
      ensures continues && AssembledToolCall(response).None? ==>
                actor.snapshot == old(actor.snapshot) &&
                messages == old(messages) + [UserMessage(input)]
                            + (if ContentText(response) != "" then [AssistantMessage(ContentText(response))] else [])
      ensures continues && AssembledToolCall(response).Some? ==>
                var toolCall := AssembledToolCall(response).value;
                var pushed := old(messages) + [UserMessage(input)];
                match Dispatch(toolCall.name)
                case None =>
                  actor.snapshot == old(actor.snapshot) && messages == pushed
                case Some(t) =>
                  actor.snapshot == ToolEffect(old(actor.snapshot), t, classification) &&
                  messages == RefreshedMessages(pushed, CurrentInstructions())
                              + [AssistantToolCalls([toolCall]),
                                 ToolMessage(toolCall.id, ToolReply(prospectId, t, classification)),
                                 AssistantMessage(ContentText(followUp))]
    {
      if IsExit(input) {
        return false, None;
      }
      var allowed := GetStateMetadata(PhaseName(actor.snapshot.phase)).allowedTools;
      messages := messages + [UserMessage(input)];
      request := Some(Request(messages, OfferedTools(FunctionSpecs, allowed), ToolChoiceFor(allowed)));
      var accumulatedContent, toolCall := ProcessStreamResponse(response);
      if toolCall.Some? {
        var result := HandleToolCall(toolCall.value, classification, followUp);
        messages := messages + result.messages;
      } else if accumulatedContent != "" {
        messages := messages + [AssistantMessage(accumulatedContent)];
      }
      continues := true;
    }
  }
}
