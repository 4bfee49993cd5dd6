/**
 * The retrieval node: builds one hybrid query from the subject and a bounded prefix of
 * the body, asks the similarity index for the single best hit, and has a chat model
 * reshape the hits into a context block. The index search and the model call are
 * parameters; whatever they raise is caught.
 */
module RetrieverNode {
  import opened Wrappers
  import opened Text
  import opened AgentState

  /** How many body characters the query may use. */
  const BodyPrefix := 1000

  /** How many hits the search asks for. */
  const TopK := 1

  const NoDocsStep := "RAG: No relevant docs found."

  /** Line 38: `"SUBJECT: {subject} | CONTENT: {body[:1000]}"`. */
  function Query(subject: string, body: string): (q: string)
    ensures |q| <= |"SUBJECT: " + subject + " | CONTENT: "| + BodyPrefix
  {
    "SUBJECT: " + subject + " | CONTENT: " + Take(body, BodyPrefix)
  }

  /** Line 48: the prompt that asks the model to format the hits for the query. */
  function FormatPrompt(query: string, hits: string): string {
    " format the answer according to the query " + query + " and the retrieved data is " + hits
  }

  /** What the node returns when it has nothing: an empty list and a zero score. */
  function NoContext(steps: Option<seq<string>>): Update {
    NoChange.(retrievedContext := Some(EmptyList), confidence := Some(ZeroFloat), steps := steps)
  }

  /**
   * `retriever`. `search(query, k)` stands for the similarity search and gives the text
   * of its hit list, as the f-string renders it; `format` is the formatting model.
   */
  function Retriever(s: State, search: (string, nat) -> Result<string>, format: string -> Reply): (u: Update)
    ensures u.retrievedContext.Some? && u.confidence.Some?
    ensures u.confidence == Some(OneString) <==> u.retrievedContext.value.Content?
    ensures u.confidence == Some(ZeroFloat) <==> u.retrievedContext == Some(EmptyList)
    ensures u.steps.Some? ==> |u.steps.value| == |s.steps| + 1 && s.steps <= u.steps.value
    ensures u == NoChange.(retrievedContext := u.retrievedContext, confidence := u.confidence, steps := u.steps)
    ensures var q := Query(s.subject, s.rawEmail);
            search(q, TopK).Success? && format(FormatPrompt(q, search(q, TopK).value)).Answer? ==>
              var c := format(FormatPrompt(q, search(q, TopK).value)).content;
              && u.retrievedContext == Some(Content(c)) && u.confidence == Some(OneString)
              && u.steps == Some(s.steps + ["RAG: Found " + IntToDecimal(|c|) + " context chunks."])
    ensures var q := Query(s.subject, s.rawEmail);
            search(q, TopK).Success? && format(FormatPrompt(q, search(q, TopK).value)).NoReply? ==>
              && u.retrievedContext == Some(EmptyList) && u.confidence == Some(ZeroFloat)
              && u.steps == Some(s.steps + [NoDocsStep])
  {
    var query := Query(s.subject, s.rawEmail);
    match search(query, TopK)
    case Failure(_) => NoContext(None)
    case Success(hits) =>
      match format(FormatPrompt(query, hits))
      case Raised(_) => NoContext(None)
      case NoReply => NoContext(Some(s.steps + [NoDocsStep]))
      case Answer(content) =>
        NoChange.(
          retrievedContext := Some(Content(content)),
          confidence := Some(OneString),
          steps := Some(s.steps + ["RAG: Found " + IntToDecimal(|content|) + " context chunks."]))
  }

  // ---------------------------------------------------------------------------------
  // Properties

  /** Only the first 1000 body characters reach the query. */
  lemma QueryUsesBodyPrefix(subject: string, body1: string, body2: string)
    requires Take(body1, BodyPrefix) == Take(body2, BodyPrefix)
    ensures Query(subject, body1) == Query(subject, body2)
  {
  }

  /** The node consults the index only with k = 1: searches that agree there give the same result. */
  lemma OnlyTopOneHitMatters(s: State, search1: (string, nat) -> Result<string>,
                             search2: (string, nat) -> Result<string>, format: string -> Reply)
    requires search1(Query(s.subject, s.rawEmail), 1) == search2(Query(s.subject, s.rawEmail), 1)
    ensures Retriever(s, search1, format) == Retriever(s, search2, format)
  {
  }

  /** A raised search or formatting call degrades to no context, with no `steps` key at all. */
  lemma ErrorsDegrade(s: State, search: (string, nat) -> Result<string>, format: string -> Reply)
    requires var q := Query(s.subject, s.rawEmail);
             search(q, 1).Failure? || format(FormatPrompt(q, search(q, 1).value)).Raised?
    ensures Retriever(s, search, format) == NoContext(None)
  {
  }

  /**
   * The knowledge-gap test is on the result object, not its text: an empty answer still
   * counts as found, with confidence "1".
   */
  lemma EmptyAnswerCountsAsFound(s: State, search: (string, nat) -> Result<string>, format: string -> Reply)
    requires var q := Query(s.subject, s.rawEmail);
             search(q, 1).Success? && format(FormatPrompt(q, search(q, 1).value)) == Answer("")
    ensures Retriever(s, search, format).retrievedContext == Some(Content(""))
    ensures Retriever(s, search, format).confidence == Some(OneString)
  {
  }
}
