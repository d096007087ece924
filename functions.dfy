/**
 * The tool handlers that drive the machine. The module globals `CURRENT_PROSPECT_ID` and
 * `stateActor` are the fields of `Runtime`; the XState actor is an `Actor` object that the
 * orchestrator shares with the runtime. A handler "sends" by calling `Actor.Send`, which
 * processes the event at once (the source's 100 ms timers are not modelled).
 */
module Functions {
  import opened Common
  import opened Stage0A

  /** A started XState actor of the machine: its current snapshot and the events it was sent. */
  class Actor {
    var snapshot: Snapshot
    ghost var sent: seq<Event>

    /** `createActor(stage0AColdProspect).start()`. */
    constructor Start()
      ensures snapshot == Initial && sent == []
    {
      snapshot := Initial;
      sent := [];
    }

    /** `actor.send(e)`: the machine takes one step; the event is recorded as sent. */
    method Send(e: Event)
      modifies this
      ensures snapshot == Step(old(snapshot), e)
      ensures sent == old(sent) + [e]
    {
      snapshot := Step(snapshot, e);
      sent := sent + [e];
    }
  }

  /** The fixed return strings of the handlers. */
  const WarmupReply := "Warm up message was generated successfully."
  const ContextualReply := "Contextual message was generated successfully."
  const FollowUpReply := "Follow-up message was generated successfully."
  const NotInitializedReply := "Error: State machine not initialized"

  /** The follow-up limit: the literal of the `followUpTries < 3` check in `generateFollowUpMessage`. */
  const FollowUpLimit: nat := 3

  /** `archiveProspect`'s message for prospect `id`. */
  function ArchiveReply(id: string): (r: string)
    ensures Contains(r, id)
  {
    ContainsMiddle("Archived prospect ", id, ArchiveReplyTail);
    "Archived prospect " + id + ArchiveReplyTail
  }

  const ArchiveReplyTail := ". This prospect has been marked as unresponsive and removed from active outreach."

  /** `moveToStage1`'s message for prospect `id`. */
  function MoveToStage1Reply(id: string): (r: string)
    ensures Contains(r, id)
  {
    ContainsMiddle("Moved prospect ", id, MoveReplyTail);
    "Moved prospect " + id + MoveReplyTail
  }

  const MoveReplyTail := " to Stage 1. The prospect has shown interest and is ready for deeper business discussions."

  /** The four classification strings, in the order of the parameter's `enum`. */
  const Classifications: seq<string> :=
    ["ASKED_ABOUT_BUSINESS", "POSITIVE_OR_NEUTRAL", "NO_RESPONSE", "NEGATIVE_RESPONSE"]

  /** The event `{ type: classification }` that `classifyProspectResponse` sends. */
  function ClassificationEvent(classification: string): (e: Event)
    ensures EventName(e) == classification
    ensures e != MessageGenerated || classification == "MESSAGE_GENERATED"
    ensures e.Unrecognized? ==>
              classification !in Classifications && classification != "MESSAGE_GENERATED"
  {
    match classification
    case "ASKED_ABOUT_BUSINESS" => AskedAboutBusiness
    case "POSITIVE_OR_NEUTRAL" => PositiveOrNeutral
    case "NO_RESPONSE" => NoResponse
    case "NEGATIVE_RESPONSE" => NegativeResponse
    case "MESSAGE_GENERATED" => MessageGenerated
    case _ => Unrecognized(classification)
  }

  /** The `switch` of `classifyProspectResponse`: the message for each category. */
  function ClassificationReply(classification: string): (r: string)
    ensures r != InvalidClassificationReply <==> classification in Classifications
  {
    match classification
    case "ASKED_ABOUT_BUSINESS" => "Prospect showed interest in business - transitioning to Stage 1"
    case "POSITIVE_OR_NEUTRAL" => "Prospect responded positively - transitioning to generate contextual message"
    case "NO_RESPONSE" => "No response from prospect - transitioning to generate follow-up"
    case "NEGATIVE_RESPONSE" => "Prospect responded negatively - transitioning to archive"
    case _ => InvalidClassificationReply
  }

  const InvalidClassificationReply := "Invalid classification type"

  /**
   * The events a handler sends when an actor is set and its snapshot is `s`. `classification`
   * is the argument of `classifyProspectResponse` and is ignored by the other handlers.
   */
  function SentBy(s: Snapshot, t: Tool, classification: string): seq<Event> {
    match t
    case GenerateWarmupMessage => [MessageGenerated]
    case GenerateContextualMessage => [MessageGenerated]
    case GenerateFollowUpMessage =>
      if s.ctx.followUpTries < FollowUpLimit then [MessageGenerated] else []
    case ArchiveProspect => []
    case MoveToStage1 => []
    case ClassifyProspectResponse => [ClassificationEvent(classification)]
  }

  /** The actor's snapshot after handler `t` ran on snapshot `s`. */
  function ToolEffect(s: Snapshot, t: Tool, classification: string): Snapshot {
    Run(s, SentBy(s, t, classification))
  }

  /** What handler `t` returns when an actor is set and the prospect id is `id`. */
  function ToolReply(id: string, t: Tool, classification: string): string {
    match t
    case GenerateWarmupMessage => WarmupReply
    case GenerateContextualMessage => ContextualReply
    case GenerateFollowUpMessage => FollowUpReply
    case ArchiveProspect => ArchiveReply(id)
    case MoveToStage1 => MoveToStage1Reply(id)
    case ClassifyProspectResponse => ClassificationReply(classification)
  }

  /** The module globals of the handlers and the handlers themselves. */
  class Runtime {
    var currentProspectId: string
    var stateActor: Actor?

    /** The globals' initial values: `""` and `null`. */
    constructor ()
      ensures currentProspectId == "" && stateActor == null
    {
      currentProspectId := "";
      stateActor := null;
    }

    method SetCurrentProspectId(id: string)
      modifies this
      ensures currentProspectId == id && stateActor == old(stateActor)
    {
      currentProspectId := id;
    }

    method SetStateActor(actor: Actor?)
      modifies this
      ensures stateActor == actor && currentProspectId == old(currentProspectId)
    {
      stateActor := actor;
    }

    /** Sends one `MESSAGE_GENERATED` when an actor is set; always reports success. */
    method GenerateWarmupMessage() returns (reply: string)
      modifies stateActor
      ensures reply == WarmupReply
      ensures stateActor != null ==>
                stateActor.sent == old(stateActor.sent) + [MessageGenerated] &&
                stateActor.snapshot == Step(old(stateActor.snapshot), MessageGenerated)
    {
      if stateActor != null {
        stateActor.Send(MessageGenerated);
      }
      reply := WarmupReply;
    }

    /** Sends one `MESSAGE_GENERATED` when an actor is set; always reports success. */
    method GenerateContextualMessage() returns (reply: string)
      modifies stateActor
      ensures reply == ContextualReply
      ensures stateActor != null ==>
                stateActor.sent == old(stateActor.sent) + [MessageGenerated] &&
                stateActor.snapshot == Step(old(stateActor.snapshot), MessageGenerated)
    {
      if stateActor != null {
        stateActor.Send(MessageGenerated);
      }
      reply := ContextualReply;
    }

    /**
     * Sends `MESSAGE_GENERATED` exactly when the counter is below the limit; otherwise calls
     * `archiveProspect`, which sends nothing, so the snapshot stays as it was.
     */
    method GenerateFollowUpMessage() returns (reply: string)
      modifies stateActor
      ensures reply == FollowUpReply
      ensures stateActor != null && old(stateActor.snapshot).ctx.followUpTries < FollowUpLimit ==>
                stateActor.sent == old(stateActor.sent) + [MessageGenerated] &&
                stateActor.snapshot == Step(old(stateActor.snapshot), MessageGenerated)
      ensures stateActor != null && old(stateActor.snapshot).ctx.followUpTries >= FollowUpLimit ==>
                stateActor.sent == old(stateActor.sent) &&
                stateActor.snapshot == old(stateActor.snapshot)
    {
      if stateActor != null {
        var followUpTries := stateActor.snapshot.ctx.followUpTries;
        if followUpTries < FollowUpLimit {
          stateActor.Send(MessageGenerated);
        } else {
          var _ := ArchiveProspect();
        }
      }
      reply := FollowUpReply;
    }

    /** A final action: sends nothing, names the prospect. */
    method ArchiveProspect() returns (reply: string)
      ensures reply == ArchiveReply(currentProspectId)
    {
      reply := ArchiveReply(currentProspectId);
    }

    /** A final action: sends nothing, names the prospect. */
    method MoveToStage1() returns (reply: string)
      ensures reply == MoveToStage1Reply(currentProspectId)
    {
      reply := MoveToStage1Reply(currentProspectId);
    }

    /**
     * Without an actor, reports the error and sends nothing. Otherwise sends exactly one event
     * whose type is the classification, then returns the category's message whether or not
     * the machine had a handler for the event.
     */
    method ClassifyProspectResponse(classification: string) returns (reply: string)
      modifies stateActor
      ensures stateActor == null ==> reply == NotInitializedReply
      ensures stateActor != null ==>
                reply == ClassificationReply(classification) &&
                stateActor.sent == old(stateActor.sent) + [ClassificationEvent(classification)] &&
                stateActor.snapshot == Step(old(stateActor.snapshot), ClassificationEvent(classification))
    {
      if stateActor == null {
        return NotInitializedReply;
      }
      stateActor.Send(ClassificationEvent(classification));
      reply := ClassificationReply(classification);
    }
  }

  // ---------------------------------------------------------------------------------------
  // The `functionSpecs` table

  /** A JSON-schema property of a function's parameters. */
  datatype Property = Property(name: string, typ: string, description: string, enumValues: seq<string>)

  /** One entry of `functionSpecs`; its `parameters` are an object with these properties. */
  datatype FunctionSpec = FunctionSpec(
    name: string, description: string, properties: seq<Property>, required: seq<string>)

  const FunctionSpecs: seq<FunctionSpec> := [
    FunctionSpec("generateWarmupMessage",
      "Generate an initial warm-up message for the user to send to a cold prospect.", [], []),
    FunctionSpec("generateContextualMessage",
      "Generate a contextual message based on previous interaction for the user to send.",
      [Property("message", "string", "The contextual message content to generate", [])], []),
    FunctionSpec("generateFollowUpMessage",
      "Generate a follow-up message for the user to send to an unresponsive prospect.", [], []),
    FunctionSpec("archiveProspect",
      "Archive a prospect after negative feedback or no response.", [], []),
    FunctionSpec("moveToStage1",
      "Move a prospect to Stage 1 when they show interest.", [], []),
    FunctionSpec("classifyProspectResponse",
      "Classify the prospect's response to determine the next action in the sales process.",
      [Property("classification", "string", ClassificationDescription, Classifications)],
      ["classification"])
  ]

  const ClassificationDescription :=
    "The classification of the prospect's response: ASKED_ABOUT_BUSINESS (they asked about your business/work), POSITIVE_OR_NEUTRAL (engaged positively but didn't ask about business), NO_RESPONSE (no response from prospect), NEGATIVE_RESPONSE (negative response)"

  /** The tool order of the table. */
  const SpecOrder: seq<Tool> := [
    GenerateWarmupMessage, GenerateContextualMessage, GenerateFollowUpMessage,
    ArchiveProspect, Tool.MoveToStage1, ClassifyProspectResponse]

  // ---------------------------------------------------------------------------------------
  // Properties of the handlers

  /** The table names the six tools, each once, in the order of `SpecOrder`. */
  lemma FunctionSpecsAreTheTools()
    ensures |FunctionSpecs| == 6
    ensures forall i :: 0 <= i < 6 ==> FunctionSpecs[i].name == ToolName(SpecOrder[i])
    ensures forall i, j :: 0 <= i < j < 6 ==> FunctionSpecs[i].name != FunctionSpecs[j].name
    ensures forall t :: t in SpecOrder
  {
    forall t: Tool ensures t in SpecOrder {
      match t
      case GenerateWarmupMessage => assert SpecOrder[0] == t;
      case GenerateContextualMessage => assert SpecOrder[1] == t;
      case GenerateFollowUpMessage => assert SpecOrder[2] == t;
      case ArchiveProspect => assert SpecOrder[3] == t;
      case MoveToStage1 => assert SpecOrder[4] == t;
      case ClassifyProspectResponse => assert SpecOrder[5] == t;
    }
  }

  /** Only `classifyProspectResponse` takes a required parameter, whose enum is the four categories. */
  lemma ClassificationParameter()
    ensures FunctionSpecs[5].required == ["classification"]
    ensures FunctionSpecs[5].properties[0].name == "classification"
    ensures FunctionSpecs[5].properties[0].enumValues == Classifications
    ensures forall i :: 0 <= i < 5 ==> FunctionSpecs[i].required == []
  {
  }

  /** Every category in the enum becomes one of the four classification events. */
  lemma ClassificationEventsAreCategories(c: string)
    requires c in Classifications
    ensures ClassificationEvent(c) in {AskedAboutBusiness, PositiveOrNeutral, NoResponse, NegativeResponse}
    ensures ClassificationReply(c) != InvalidClassificationReply
  {
  }

  /** The classifier's message does not depend on whether the machine took the event. */
  lemma NoResponseOutsideCollectFeedback(s: Snapshot)
    requires s.phase != CollectFeedback
    ensures ToolEffect(s, ClassifyProspectResponse, "NO_RESPONSE") == s
    ensures ToolReply("", ClassifyProspectResponse, "NO_RESPONSE")
              == "No response from prospect - transitioning to generate follow-up"
  {
    RunOne(s, NoResponse);
  }

  /** `generateFollowUpMessage` moves to `collectFeedback` exactly when the counter is below the limit. */
  lemma FollowUpHonoursLimit(s: Snapshot)
    requires s.phase == GenerateFollowUp
    ensures s.ctx.followUpTries < FollowUpLimit ==> ToolEffect(s, GenerateFollowUpMessage, "") == Snapshot(CollectFeedback, s.ctx)
    ensures s.ctx.followUpTries >= FollowUpLimit ==> ToolEffect(s, GenerateFollowUpMessage, "") == s
  {
    RunOne(s, MessageGenerated);
  }

  /** Each handler sends at most one event, and never changes the prospect id. */
  lemma HandlersSendAtMostOne(s: Snapshot, t: Tool, c: string)
    ensures |SentBy(s, t, c)| <= 1
    ensures ToolEffect(s, t, c).ctx.prospectId == s.ctx.prospectId
    ensures t in {ArchiveProspect, Tool.MoveToStage1} ==> SentBy(s, t, c) == [] && ToolEffect(s, t, c) == s
  {
    RunKeepsProspectId(s, SentBy(s, t, c));
  }

  // ---------------------------------------------------------------------------------------
  // The follow-up limit, composed over sequences of tool calls

  /** One tool call as the handlers see it: the tool and the classification argument. */
  datatype Call = Call(tool: Tool, classification: string)

  /** The actor's snapshot after a sequence of tool calls, with an actor set. */
  function RunCalls(s: Snapshot, calls: seq<Call>): Snapshot
    decreases calls
  {
    if calls == [] then s
    else RunCalls(ToolEffect(s, calls[0].tool, calls[0].classification), calls[1..])
  }

  /** Every call uses a tool that the current phase's meta allows, at the time of the call. */
  predicate PermittedCalls(s: Snapshot, calls: seq<Call>)
    decreases calls
  {
    calls == [] ||
    (calls[0].tool in MetaOf(s.phase).allowedTools &&
     PermittedCalls(ToolEffect(s, calls[0].tool, calls[0].classification), calls[1..]))
  }

  /** The counter is at most the limit in `generateFollowUp` and below it anywhere else. */
  predicate TriesBound(s: Snapshot) {
    s.ctx.followUpTries <= (if s.phase == GenerateFollowUp then FollowUpLimit else FollowUpLimit - 1)
  }

  /** A permitted call keeps the bound. */
  lemma PermittedCallKeepsBound(s: Snapshot, c: Call)
    requires TriesBound(s)
    requires c.tool in MetaOf(s.phase).allowedTools
    ensures TriesBound(ToolEffect(s, c.tool, c.classification))
  {
    assert c.tool == AllowedTool(s.phase);
    match s.phase
    case CollectFeedback =>
      var e := ClassificationEvent(c.classification);
      assert SentBy(s, c.tool, c.classification) == [e];
      RunOne(s, e);
      EntersFollowUpIff(s, e);
    case GenerateWarmup | GenerateContextual =>
      assert SentBy(s, c.tool, c.classification) == [MessageGenerated];
      RunOne(s, MessageGenerated);
    case GenerateFollowUp =>
      if s.ctx.followUpTries < FollowUpLimit {
        assert SentBy(s, c.tool, c.classification) == [MessageGenerated];
        RunOne(s, MessageGenerated);
      }
    case MoveToStage1 | Archive =>
      assert SentBy(s, c.tool, c.classification) == [];
  }

  /** Tool calls restricted to the allowed tools never raise the counter above the limit. */
  lemma {:induction false} PermittedCallsKeepBound(s: Snapshot, calls: seq<Call>)
    requires TriesBound(s)
    requires PermittedCalls(s, calls)
    ensures TriesBound(RunCalls(s, calls))
    ensures RunCalls(s, calls).ctx.followUpTries <= FollowUpLimit
    decreases calls
  {
    if calls != [] {
      PermittedCallKeepsBound(s, calls[0]);
      PermittedCallsKeepBound(ToolEffect(s, calls[0].tool, calls[0].classification), calls[1..]);
    }
  }

  /** From the initial snapshot, permitted calls keep `followUpTries` within the limit. */
  lemma PermittedSessionWithinLimit(calls: seq<Call>)
    requires PermittedCalls(Initial, calls)
    ensures RunCalls(Initial, calls).ctx.followUpTries <= FollowUpLimit
  {
    PermittedCallsKeepBound(Initial, calls);
  }

  /**
   * The restriction is needed: calling `generateWarmupMessage` while in `generateFollowUp` with
   * the counter at 3 sends `MESSAGE_GENERATED` unconditionally, and a further `NO_RESPONSE`
   * raises the counter to 4.
   */
  lemma UnrestrictedCallsPassLimit()
    ensures var s := Snapshot(GenerateFollowUp, Ctx("<<set-by-caller>>", 3));
            var calls := [Call(GenerateWarmupMessage, ""), Call(ClassifyProspectResponse, "NO_RESPONSE")];
            !PermittedCalls(s, calls) && RunCalls(s, calls) == Snapshot(GenerateFollowUp, Ctx("<<set-by-caller>>", 4))
  {
    var s := Snapshot(GenerateFollowUp, Ctx("<<set-by-caller>>", 3));
    var s1 := Snapshot(CollectFeedback, Ctx("<<set-by-caller>>", 3));
    var s2 := Snapshot(GenerateFollowUp, Ctx("<<set-by-caller>>", 4));
    var c0, c1 := Call(GenerateWarmupMessage, ""), Call(ClassifyProspectResponse, "NO_RESPONSE");
    var calls := [c0, c1];
    assert MetaOf(s.phase).allowedTools == [GenerateFollowUpMessage];
    RunOne(s, MessageGenerated);
    assert ToolEffect(s, c0.tool, c0.classification) == s1;
    assert ClassificationEvent("NO_RESPONSE") == NoResponse;
    assert SentBy(s1, c1.tool, c1.classification) == [NoResponse];
    RunOne(s1, NoResponse);
    assert ToolEffect(s1, c1.tool, c1.classification) == s2;
    assert calls[1..] == [c1];
    assert [c1][1..] == [];
    assert RunCalls(s1, [c1]) == s2;
  }

  /**
   * Once the limit is reached the workflow stalls: in `generateFollowUp` with the counter at
   * 3 or more, every permitted call leaves the snapshot as it is, so `archive` is never reached
   * by permitted calls.
   */
  lemma {:induction false} FollowUpLimitStalls(s: Snapshot, calls: seq<Call>)
    requires s.phase == GenerateFollowUp && s.ctx.followUpTries >= FollowUpLimit
    requires PermittedCalls(s, calls)
    ensures RunCalls(s, calls) == s
    decreases calls
  {
    if calls != [] {
      assert SentBy(s, calls[0].tool, calls[0].classification) == [];
      FollowUpLimitStalls(s, calls[1..]);
    }
  }
}
