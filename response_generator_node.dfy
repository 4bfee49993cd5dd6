/**
 * The drafting node: picks the context mode, assembles the two-message prompt, and asks
 * the primary model, then the fallback model, then gives up with a fixed placeholder.
 * Both models are parameters; building the primary model or its prompt may raise.
 */
module ResponseGeneratorNode {
  import opened Wrappers
  import opened AgentState

  /** Where the reply's knowledge comes from. */
  datatype Mode = InternalReasoning | RagKnowledgeBase

  function ModeName(m: Mode): string {
    match m
    case InternalReasoning => "INTERNAL_REASONING"
    case RagKnowledgeBase => "RAG_KNOWLEDGE_BASE"
  }

  const NoDocsContext := "No specific internal documents found. Rely on core logic and general knowledge."
  const Placeholder := "I'm currently looking into this and will provide a detailed update shortly."
  const FallbackStep := "Generated response using Fallback Model."

  /** What Python raises when the fallback reads the prompt the primary branch never bound. */
  const UnboundPromptError := "cannot access local variable 'formatted_prompt' where it is not associated with a value"

  /**
   * The system message: persona, operating protocols and behavioural constraints are
   * fixed text around these three values.
   */
  datatype SystemMessage = SystemMessage(specialty: string, mode: Mode, tone: string)

  /** The human message: its four slots, in the template's order. */
  datatype HumanMessage = HumanMessage(history: string, context: string, subject: string, body: string)

  /** The prompt as the chat models receive it: constraints first, then the content. */
  datatype Prompt = Prompt(system: SystemMessage, human: HumanMessage)

  /** Lines 16-24: the mode and the text for the knowledge-base slot. */
  function ContextMode(c: Context): (r: (Mode, string))
    ensures r.0 == InternalReasoning <==> IsEmptyContext(c)
    ensures r.0 == InternalReasoning ==> r.1 == NoDocsContext
    ensures r.0 == RagKnowledgeBase ==> c.Content? && r.1 == c.text
  {
    if IsEmptyContext(c) then (InternalReasoning, NoDocsContext) else (RagKnowledgeBase, c.text)
  }

  /** Lines 27-73: the prompt for this record and thread history. */
  function BuildPrompt(s: State, history: string): (p: Prompt)
    ensures p.system.mode == ContextMode(s.retrievedContext).0
    ensures p.human == HumanMessage(history, ContextMode(s.retrievedContext).1, s.subject, s.rawEmail)
  {
    var (mode, context) := ContextMode(s.retrievedContext);
    Prompt(SystemMessage(Show(s.category), mode, Show(s.tone)), HumanMessage(history, context, s.subject, s.rawEmail))
  }

  /** Which attempt produced the draft. */
  datatype Attempt = Primary(content: string) | Fallback(content: string) | GaveUp(error: string)

  /**
   * The try/except chain. `primarySetup` is an exception raised while constructing the
   * primary model or formatting its prompt; it leaves the prompt unbound, and so the
   * fallback, if it gets as far as invoking, fails too. `fallbackSetup` is an
   * exception raised while constructing the fallback model.
   */
  function Attempts(p: Prompt, primarySetup: Option<string>, primary: Prompt -> Reply,
                    fallbackSetup: Option<string>, fallback: Prompt -> Reply): (a: Attempt)
    ensures a.Primary? <==> primarySetup.None? && primary(p).Answer?
    ensures a.Primary? ==> a.content == primary(p).content
    ensures a.Fallback? <==> !a.Primary? && primarySetup.None? && fallbackSetup.None? && fallback(p).Answer?
    ensures a.Fallback? ==> a.content == fallback(p).content
  {
    var first := if primarySetup.Some? then Failure(primarySetup.value) else ReplyContent(primary(p));
    match first
    case Success(c) => Primary(c)
    case Failure(_) =>
      var second :=
        if fallbackSetup.Some? then Failure(fallbackSetup.value)
        else if primarySetup.Some? then Failure(UnboundPromptError)
        else ReplyContent(fallback(p));
      match second
      case Success(c) => Fallback(c)
      case Failure(e) => GaveUp(e)
  }

  /** `response_generator`, with the thread history already rendered. */
  function Generator(s: State, history: string, primarySetup: Option<string>, primary: Prompt -> Reply,
                     fallbackSetup: Option<string>, fallback: Prompt -> Reply): (u: Update)
    ensures u.draftReply.Some? && u.draftReply.value.Str?
    ensures u.steps.Some? && |u.steps.value| == |s.steps| + 1 && s.steps <= u.steps.value
    ensures primarySetup.Some? ==> u.draftReply == Some(Str(Placeholder))
    ensures u == NoChange.(draftReply := u.draftReply, steps := u.steps)
  {
    var p := BuildPrompt(s, history);
    match Attempts(p, primarySetup, primary, fallbackSetup, fallback)
    case Primary(c) =>
      NoChange.(
        draftReply := Some(Str(c)),
        steps := Some(s.steps + ["Generated " + Show(s.category) + " response via " + ModeName(p.system.mode) + "."]))
    case Fallback(c) =>
      NoChange.(draftReply := Some(Str(c)), steps := Some(s.steps + [FallbackStep]))
    case GaveUp(e) =>
      NoChange.(draftReply := Some(Str(Placeholder)), steps := Some(s.steps + ["Generation failed: " + e]))
  }

  // ---------------------------------------------------------------------------------
  // Properties

  /** The chain's outcome, end to end: which text becomes the draft and what the step says. */
  lemma FallbackChain(s: State, history: string, primarySetup: Option<string>, primary: Prompt -> Reply,
                      fallbackSetup: Option<string>, fallback: Prompt -> Reply)
    ensures var p := BuildPrompt(s, history);
            var u := Generator(s, history, primarySetup, primary, fallbackSetup, fallback);
            var last := u.steps.value[|u.steps.value| - 1];
            && (primarySetup.None? && primary(p).Answer? ==>
                  u.draftReply == Some(Str(primary(p).content))
                  && last == "Generated " + Show(s.category) + " response via " + ModeName(p.system.mode) + ".")
            && (primarySetup.None? && !primary(p).Answer? && fallbackSetup.None? && fallback(p).Answer? ==>
                  u.draftReply == Some(Str(fallback(p).content)) && last == FallbackStep)
            && (!(primarySetup.None? && primary(p).Answer?) && !(primarySetup.None? && fallbackSetup.None? && fallback(p).Answer?) ==>
                  u.draftReply == Some(Str(Placeholder)) && last[..19] == "Generation failed: ")
  {
    var p := BuildPrompt(s, history);
    var u := Generator(s, history, primarySetup, primary, fallbackSetup, fallback);
    var a := Attempts(p, primarySetup, primary, fallbackSetup, fallback);
    if a.GaveUp? {
      var last := u.steps.value[|u.steps.value| - 1];
      assert last == "Generation failed: " + a.error;
    }
  }

  /** A failure before the prompt exists cannot be rescued, whatever the fallback model would say. */
  lemma SetupFailureGivesPlaceholder(s: State, history: string, err: string, primary: Prompt -> Reply,
                                     fallbackSetup: Option<string>, fallback: Prompt -> Reply)
    ensures var u := Generator(s, history, Some(err), primary, fallbackSetup, fallback);
            var e := if fallbackSetup.Some? then fallbackSetup.value else UnboundPromptError;
            u.draftReply == Some(Str(Placeholder)) && u.steps == Some(s.steps + ["Generation failed: " + e])
  {
  }
}
