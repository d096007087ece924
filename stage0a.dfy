/**
 * The `stage0AColdProspect` state machine: six phases, a context of a prospect id and a
 * follow-up counter, five events, the entry action `incTries` of `generateFollowUp`, and the
 * per-phase meta (a prompt and the allowed tools). XState's semantics are written out:
 * an event the current phase has no handler for changes nothing, entering `generateFollowUp`
 * runs `incTries`, and the two final phases accept nothing.
 */
module Stage0A {
  import opened Common

  /** The `Tool` union: the six function names the assistant may call. */
  datatype Tool =
    | GenerateWarmupMessage
    | GenerateContextualMessage
    | GenerateFollowUpMessage
    | ArchiveProspect
    | MoveToStage1
    | ClassifyProspectResponse

  /** The string value of a tool. */
  function ToolName(t: Tool): string {
    match t
    case GenerateWarmupMessage => "generateWarmupMessage"
    case GenerateContextualMessage => "generateContextualMessage"
    case GenerateFollowUpMessage => "generateFollowUpMessage"
    case ArchiveProspect => "archiveProspect"
    case MoveToStage1 => "moveToStage1"
    case ClassifyProspectResponse => "classifyProspectResponse"
  }

  /** The names of a list of tools, in order. */
  function ToolNames(ts: seq<Tool>): (r: seq<string>)
    ensures |r| == |ts|
    ensures forall i :: 0 <= i < |ts| ==> r[i] == ToolName(ts[i])
  {
    if ts == [] then [] else [ToolName(ts[0])] + ToolNames(ts[1..])
  }

  /** Distinct tools have distinct names. */
  lemma ToolNameInjective(t: Tool, u: Tool)
    ensures ToolName(t) == ToolName(u) ==> t == u
  {
  }

  /** The phases (state values) of the machine. */
  datatype Phase =
    | GenerateWarmup
    | CollectFeedback
    | GenerateContextual
    | GenerateFollowUp
    | MoveToStage1
    | Archive

  /** The state value XState reports for a phase. */
  function PhaseName(p: Phase): string {
    match p
    case GenerateWarmup => "generateWarmup"
    case CollectFeedback => "collectFeedback"
    case GenerateContextual => "generateContextual"
    case GenerateFollowUp => "generateFollowUp"
    case MoveToStage1 => "moveToStage1"
    case Archive => "archive"
  }

  /** Looks a state value up among the machine's states: the inverse of `PhaseName`. */
  function PhaseOfName(name: string): (r: Option<Phase>)
    ensures r.Some? ==> PhaseName(r.value) == name
    ensures r.None? ==> forall p :: PhaseName(p) != name
  {
    match name
    case "generateWarmup" => Some(GenerateWarmup)
    case "collectFeedback" => Some(CollectFeedback)
    case "generateContextual" => Some(GenerateContextual)
    case "generateFollowUp" => Some(GenerateFollowUp)
    case "moveToStage1" => Some(Phase.MoveToStage1)
    case "archive" => Some(Archive)
    case _ => None
  }

  /** The phases marked `type: "final"`: they handle no event, and every other phase handles one. */
  predicate IsFinal(p: Phase): (b: bool)
    ensures b ==> forall e :: Target(p, e).None?
    ensures !b ==> Target(p, MessageGenerated).Some? || Target(p, NoResponse).Some?
  {
    p == Phase.MoveToStage1 || p == Archive
  }

  /**
   * The `Evt` union. `Unrecognized` stands for an event object whose `type` is none of the
   * five: the classification handler forwards a string taken from decoded JSON arguments, so
   * at run time such an event can reach the machine, which has no handler for it. By
   * convention `typeName` is never one of the five names; the only producer,
   * `Functions.ClassificationEvent`, states this in its contract.
   */
  datatype Event =
    | AskedAboutBusiness
    | PositiveOrNeutral
    | NoResponse
    | NegativeResponse
    | MessageGenerated
    | Unrecognized(typeName: string)

  /** The `type` field of an event. */
  function EventName(e: Event): string {
    match e
    case AskedAboutBusiness => "ASKED_ABOUT_BUSINESS"
    case PositiveOrNeutral => "POSITIVE_OR_NEUTRAL"
    case NoResponse => "NO_RESPONSE"
    case NegativeResponse => "NEGATIVE_RESPONSE"
    case MessageGenerated => "MESSAGE_GENERATED"
    case Unrecognized(name) => name
  }

  /** The machine context `Ctx`. */
  datatype Ctx = Ctx(prospectId: string, followUpTries: nat)

  /** What the actor's snapshot holds: the state value and the context. */
  datatype Snapshot = Snapshot(phase: Phase, ctx: Ctx)

  /** The initial snapshot: the `initial` phase and the literal initial context. */
  const Initial: Snapshot := Snapshot(GenerateWarmup, Ctx("<<set-by-caller>>", 0))

  /**
   * The `hasMoreFollowUps` guard. It is declared by the machine but no transition refers to
   * it. It admits exactly the counters that one more `incTries` keeps within 3.
   */
  predicate HasMoreFollowUps(ctx: Ctx): (b: bool)
    ensures b <==> IncTries(ctx).followUpTries <= 3
  {
    ctx.followUpTries < 3
  }

  /** The `incTries` action: assigns `followUpTries + 1` and nothing else. */
  function IncTries(ctx: Ctx): (r: Ctx)
    ensures r.prospectId == ctx.prospectId
    ensures r.followUpTries == ctx.followUpTries + 1
  {
    ctx.(followUpTries := ctx.followUpTries + 1)
  }

  /**
   * The `on` maps: the target of `e` in phase `p`, or `None` when `p` has no handler for it.
   * Only `collectFeedback` branches; every other handler is `MESSAGE_GENERATED` back to
   * `collectFeedback`, and `generateWarmup` is never re-entered.
   */
  function Target(p: Phase, e: Event): (r: Option<Phase>)
    ensures r.Some? && p != CollectFeedback ==> e == MessageGenerated && r.value == CollectFeedback
    ensures r.Some? ==> r.value != GenerateWarmup && r.value != p
    ensures p == CollectFeedback ==> (r.Some? <==> e in {AskedAboutBusiness, PositiveOrNeutral, NoResponse, NegativeResponse})
  {
    match p
    case GenerateWarmup | GenerateContextual | GenerateFollowUp =>
      if e == MessageGenerated then Some(CollectFeedback) else None
    case CollectFeedback =>
      (match e
       case AskedAboutBusiness => Some(Phase.MoveToStage1)
       case PositiveOrNeutral => Some(GenerateContextual)
       case NoResponse => Some(GenerateFollowUp)
       case NegativeResponse => Some(Archive)
       case _ => None)
    case MoveToStage1 | Archive => None
  }

  /** The one transition that enters `generateFollowUp`. */
  predicate EntersFollowUp(s: Snapshot, e: Event) {
    s.phase == CollectFeedback && e == NoResponse
  }

  /**
   * One event processed by the actor. Without a handler nothing changes; otherwise the phase
   * becomes the target, and entering `generateFollowUp` runs `incTries`.
   */
  function Step(s: Snapshot, e: Event): (r: Snapshot)
    ensures r.ctx.prospectId == s.ctx.prospectId
    ensures r.ctx.followUpTries == s.ctx.followUpTries + (if EntersFollowUp(s, e) then 1 else 0)
    ensures Target(s.phase, e).None? ==> r == s
  {
    match Target(s.phase, e)
    case None => s
    case Some(q) => Snapshot(q, if q == GenerateFollowUp then IncTries(s.ctx) else s.ctx)
  }

  /** `EntersFollowUp` is exactly a step from another phase into `generateFollowUp`. */
  lemma EntersFollowUpIff(s: Snapshot, e: Event)
    ensures EntersFollowUp(s, e) <==> s.phase != GenerateFollowUp && Step(s, e).phase == GenerateFollowUp
  {
  }

  /** The `meta` of each phase: its prompt and its allowed tools. */
  function MetaOf(p: Phase): (m: Meta)
    ensures |m.prompt| > 0
    ensures m.allowedTools == [AllowedTool(p)]
  {
    Meta(Prompt(AllowedTool(p), PromptTail(p)), [AllowedTool(p)])
  }

  /** Each phase's prompt names the one tool the phase allows. */
  lemma PromptNamesAllowedTool(p: Phase)
    ensures Contains(MetaOf(p).prompt, ToolName(MetaOf(p).allowedTools[0]))
  {
    ContainsMiddle("You must use the ", ToolName(AllowedTool(p)), PromptTail(p));
  }

  /** The state-node meta: an instruction prompt and a list of tools. */
  datatype Meta = Meta(prompt: string, allowedTools: seq<Tool>)

  /** The single tool each phase's meta allows. */
  function AllowedTool(p: Phase): Tool {
    match p
    case GenerateWarmup => GenerateWarmupMessage
    case CollectFeedback => ClassifyProspectResponse
    case GenerateContextual => GenerateContextualMessage
    case GenerateFollowUp => GenerateFollowUpMessage
    case MoveToStage1 => Tool.MoveToStage1
    case Archive => ArchiveProspect
  }

  /** Every prompt has the form "You must use the <tool> function to ...". */
  function Prompt(t: Tool, tail: string): string {
    "You must use the " + ToolName(t) + tail
  }

  /** The part of each phase's prompt after the tool name. */
  function PromptTail(p: Phase): string {
    match p
    case GenerateWarmup => WarmupPromptTail
    case CollectFeedback => CollectFeedbackPromptTail
    case GenerateContextual => ContextualPromptTail
    case GenerateFollowUp => FollowUpPromptTail
    case MoveToStage1 => MoveToStage1PromptTail
    case Archive => ArchivePromptTail
  }

  /** The prompt texts after the tool name. */
  const WarmupPromptTail :=
    " function to create a message for the prospect. Do not provide message suggestions in your response - only use the function call."
  const CollectFeedbackPromptTail :=
    " function to analyze the prospect's response. Do not provide analysis in your chat response - only use the function call to classify their response type."
  const ContextualPromptTail :=
    " function to create a contextual message. Do not provide message suggestions in your response - only use the function call."
  const FollowUpPromptTail :=
    " function to create a follow-up message. Do not provide message suggestions in your response - only use the function call."
  const MoveToStage1PromptTail :=
    " function to transition the prospect to Stage 1. Do not provide explanations in your response - only use the function call."
  const ArchivePromptTail :=
    " function to archive the prospect. Do not provide explanations in your response - only use the function call."

  /** Events applied one after another, in order. */
  function Run(s: Snapshot, es: seq<Event>): Snapshot
    decreases es
  {
    if es == [] then s else Run(Step(s, es[0]), es[1..])
  }

  /** How many steps of the trace from `s` enter `generateFollowUp` from another phase. */
  function FollowUpEntries(s: Snapshot, es: seq<Event>): nat
    decreases es
  {
    if es == [] then 0
    else
      var t := Step(s, es[0]);
      (if s.phase != GenerateFollowUp && t.phase == GenerateFollowUp then 1 else 0)
      + FollowUpEntries(t, es[1..])
  }

  // ---------------------------------------------------------------------------------------
  // Properties of the machine

  /** The machine starts in `generateWarmup` with no follow-ups. */
  lemma InitialSnapshot()
    ensures Initial.phase == GenerateWarmup && PhaseName(Initial.phase) == "generateWarmup"
    ensures Initial.ctx.followUpTries == 0
    ensures !IsFinal(Initial.phase)
  {
  }

  /** In the three generating phases only `MESSAGE_GENERATED` moves, to `collectFeedback`. */
  lemma GeneratingPhases(s: Snapshot, e: Event)
    requires s.phase in {GenerateWarmup, GenerateContextual, GenerateFollowUp}
    ensures e == MessageGenerated ==> Step(s, e) == Snapshot(CollectFeedback, s.ctx)
    ensures e != MessageGenerated ==> Step(s, e) == s
  {
  }

  /** The routing of the four classifications in `collectFeedback`; anything else is ignored. */
  lemma CollectFeedbackRouting(s: Snapshot, e: Event)
    requires s.phase == CollectFeedback
    ensures e == AskedAboutBusiness ==> Step(s, e) == Snapshot(Phase.MoveToStage1, s.ctx)
    ensures e == PositiveOrNeutral ==> Step(s, e) == Snapshot(GenerateContextual, s.ctx)
    ensures e == NoResponse ==> Step(s, e) == Snapshot(GenerateFollowUp, IncTries(s.ctx))
    ensures e == NegativeResponse ==> Step(s, e) == Snapshot(Archive, s.ctx)
    ensures e.MessageGenerated? || e.Unrecognized? ==> Step(s, e) == s
  {
  }

  /**
   * `NO_RESPONSE` in `collectFeedback` reaches `generateFollowUp` whatever the counter is,
   * also when `hasMoreFollowUps` would be false: the guard is not consulted.
   */
  lemma NoResponseIsUnguarded(ctx: Ctx)
    ensures Step(Snapshot(CollectFeedback, ctx), NoResponse).phase == GenerateFollowUp
    ensures !HasMoreFollowUps(ctx) ==> Step(Snapshot(CollectFeedback, ctx), NoResponse).phase != Archive
  {
  }

  /** Final phases accept nothing, and they are the only phases that accept nothing. */
  lemma FinalIffNoHandler(p: Phase)
    ensures IsFinal(p) <==> forall e :: Target(p, e).None?
  {
    if !IsFinal(p) {
      var e := if p == CollectFeedback then NoResponse else MessageGenerated;
      assert Target(p, e).Some?;
    }
  }

  /** A one-event trace is one step. */
  lemma RunOne(s: Snapshot, e: Event)
    ensures Run(s, [e]) == Step(s, e)
  {
    assert [e][1..] == [];
  }

  /** Running a trace in two pieces is running it whole. */
  lemma {:induction false} RunAppend(s: Snapshot, a: seq<Event>, b: seq<Event>)
    ensures Run(s, a + b) == Run(Run(s, a), b)
    decreases a
  {
    if a != [] {
      assert (a + b)[1..] == a[1..] + b;
      RunAppend(Step(s, a[0]), a[1..], b);
    } else {
      assert a + b == b;
    }
  }

  /** A final snapshot is left exactly as it is by every trace. */
  lemma {:induction false} FinalAbsorbs(s: Snapshot, es: seq<Event>)
    requires IsFinal(s.phase)
    ensures Run(s, es) == s
    decreases es
  {
    if es != [] {
      FinalAbsorbs(Step(s, es[0]), es[1..]);
    }
  }

  /** No trace changes the prospect id: `incTries` assigns only the counter. */
  lemma {:induction false} RunKeepsProspectId(s: Snapshot, es: seq<Event>)
    ensures Run(s, es).ctx.prospectId == s.ctx.prospectId
    decreases es
  {
    if es != [] {
      RunKeepsProspectId(Step(s, es[0]), es[1..]);
    }
  }

  /** The counter grows by exactly the number of entries into `generateFollowUp`. */
  lemma {:induction false} RunCountsFollowUps(s: Snapshot, es: seq<Event>)
    ensures Run(s, es).ctx.followUpTries == s.ctx.followUpTries + FollowUpEntries(s, es)
    decreases es
  {
    if es != [] {
      EntersFollowUpIff(s, es[0]);
      RunCountsFollowUps(Step(s, es[0]), es[1..]);
    }
  }

  /** Along any trace the counter never decreases: nothing resets it. */
  lemma RunTriesMonotone(s: Snapshot, es: seq<Event>, i: nat, j: nat)
    requires i <= j <= |es|
    ensures Run(s, es[..i]).ctx.followUpTries <= Run(s, es[..j]).ctx.followUpTries
  {
    assert es[..j] == es[..i] + es[i..j];
    RunAppend(s, es[..i], es[i..j]);
    RunCountsFollowUps(Run(s, es[..i]), es[i..j]);
  }

  /** Each tool is allowed in exactly one phase. */
  lemma EachToolHasOnePhase(t: Tool)
    ensures exists p :: AllowedTool(p) == t
    ensures forall p, q :: AllowedTool(p) == t && AllowedTool(q) == t ==> p == q
  {
    var p := match t
      case GenerateWarmupMessage => GenerateWarmup
      case GenerateContextualMessage => GenerateContextual
      case GenerateFollowUpMessage => GenerateFollowUp
      case ArchiveProspect => Archive
      case MoveToStage1 => Phase.MoveToStage1
      case ClassifyProspectResponse => CollectFeedback;
    assert AllowedTool(p) == t;
  }

  /** The final phases still carry a non-empty tool list. */
  lemma FinalPhasesKeepATool(p: Phase)
    requires IsFinal(p)
    ensures MetaOf(p).allowedTools != []
    ensures p == Archive ==> MetaOf(p).allowedTools == [ArchiveProspect]
    ensures p == Phase.MoveToStage1 ==> MetaOf(p).allowedTools == [Tool.MoveToStage1]
  {
    if p == Archive {
      assert AllowedTool(p) == ArchiveProspect;
    } else {
      assert AllowedTool(p) == Tool.MoveToStage1;
    }
  }

  /**
   * Warm-up, a positive reply, a contextual message and silence land in `generateFollowUp`
   * with one follow-up counted.
   */
  lemma WarmupContextualSilence()
    ensures Run(Initial, [MessageGenerated, PositiveOrNeutral, MessageGenerated, NoResponse])
            == Snapshot(GenerateFollowUp, Ctx("<<set-by-caller>>", 1))
  {
    var es := [MessageGenerated, PositiveOrNeutral, MessageGenerated, NoResponse];
    var s1 := Snapshot(CollectFeedback, Initial.ctx);
    var s2 := Snapshot(GenerateContextual, Initial.ctx);
    assert Run(Initial, es) == Run(s1, es[1..]);
    assert es[1..][1..] == [MessageGenerated, NoResponse];
    assert Run(s1, es[1..]) == Run(s2, [MessageGenerated, NoResponse]);
    assert [MessageGenerated, NoResponse][1..] == [NoResponse];
    RunOne(s1, NoResponse);
  }

  /**
   * A second silence after a follow-up is counted again and leads back to
   * `generateFollowUp`, not to `archive`: the counter is never reset and never checked here.
   */
  lemma SecondSilenceFollowsUpAgain(ctx: Ctx)
    ensures Run(Snapshot(CollectFeedback, ctx), [NoResponse, MessageGenerated, NoResponse])
            == Snapshot(GenerateFollowUp, ctx.(followUpTries := ctx.followUpTries + 2))
  {
    var es := [NoResponse, MessageGenerated, NoResponse];
    var s1 := Snapshot(GenerateFollowUp, IncTries(ctx));
    var s2 := Snapshot(CollectFeedback, IncTries(ctx));
    assert es[1..] == [MessageGenerated, NoResponse];
    assert es[1..][1..] == [NoResponse];
    assert Run(s1, es[1..]) == Run(s2, [NoResponse]);
    RunOne(s2, NoResponse);
  }
}
