/**
 * The run record that flows through the graph, and the way a node's partial update is
 * merged back into it: every key a node returns overwrites the record's value, except
 * `steps`, which is declared with the concatenating reducer and so is appended to.
 */
module AgentState {
  import opened Wrappers
  import opened Text

  /**
   * A Python value as the analyzer's JSON can produce it. `Other` stands for floats,
   * lists and objects: only their truthiness and their `str()` text are ever used.
   */
  datatype Value = Null | Bool(b: bool) | Int(i: int) | Str(s: string) | Other(truthy: bool, text: string)

  /** Python truthiness (`if v:`). */
  predicate Truthy(v: Value) {
    match v
    case Null => false
    case Bool(b) => b
    case Int(i) => i != 0
    case Str(s) => s != ""
    case Other(t, _) => t
  }

  /** `v is True`: only the boolean singleton, never `1` or `"true"`. */
  predicate IsTrue(v: Value) {
    v == Bool(true)
  }

  /** `v is False` */
  predicate IsFalse(v: Value) {
    v == Bool(false)
  }

  /** How an f-string renders the value. */
  function Show(v: Value): string {
    match v
    case Null => "None"
    case Bool(b) => if b then "True" else "False"
    case Int(i) => IntToDecimal(i)
    case Str(s) => s
    case Other(_, text) => text
  }

  /** `retrieved_context`: a string, or the empty list the retriever stores when it finds nothing. */
  datatype Context = EmptyList | Content(text: string)

  /** `len(retrieved_context)` as far as the generator cares: zero or not. */
  predicate IsEmptyContext(c: Context) {
    c.EmptyList? || c.text == ""
  }

  /** `confidence_score`: the float `0.0`, or the string `"1"` the retriever stores on success. */
  datatype Confidence = ZeroFloat | OneString

  /**
   * What a chat-model call gives back: the exception it raised, a falsy result, or a
   * message with its text content.
   */
  datatype Reply = Raised(error: string) | NoReply | Answer(content: string)

  /** The error Python raises when `.content` is read from a missing result. */
  const NoContentError := "'NoneType' object has no attribute 'content'"

  /** `reply.content`, or the exception reading it raises. */
  function ReplyContent(r: Reply): (c: Result<string>)
    ensures c.Success? <==> r.Answer?
    ensures r.Answer? ==> c.value == r.content
  {
    match r
    case Raised(e) => Failure(e)
    case NoReply => Failure(NoContentError)
    case Answer(text) => Success(text)
  }

  /** The fields the mail reader fills in for one inbound message. */
  datatype Message = Message(messageId: string, threadId: string, senderEmail: string, subject: string, rawEmail: string)

  /**
   * The run record. Every key of the record is present from the start (the workflow
   * supplies a complete initial record), so a missing key is never modelled.
   */
  datatype State = State(
    messageId: string,
    threadId: string,
    senderEmail: string,
    subject: string,
    rawEmail: string,
    category: Value,
    tone: Value,
    isSpam: Value,
    needsReply: Value,   // truthy: draft and send; false: skip
    priority: Value,     // meant to lie on a 1-5 scale; nothing enforces it
    draftReply: Value,
    retrievedContext: Context,
    confidence: Confidence,
    finalDecision: string,
    steps: seq<string>)

  /** The dictionary a node returns: `None` for a key it does not return. */
  datatype Update = Update(
    message: Option<Message>,
    category: Option<Value>,
    tone: Option<Value>,
    isSpam: Option<Value>,
    needsReply: Option<Value>,
    priority: Option<Value>,
    draftReply: Option<Value>,
    retrievedContext: Option<Context>,
    confidence: Option<Confidence>,
    finalDecision: Option<string>,
    steps: Option<seq<string>>)

  /** The empty dictionary. */
  const NoChange := Update(None, None, None, None, None, None, None, None, None, None, None)

  /** The steps a node contributes; a missing `steps` key contributes none. */
  function NewSteps(u: Update): seq<string> {
    u.steps.GetOr([])
  }

  /**
   * Merges a node's update into the record: returned keys overwrite, `steps` is
   * concatenated (`operator.add`), keys not returned are kept.
   */
  function Merge(s: State, u: Update): (r: State)
    ensures r.steps == s.steps + NewSteps(u)
    ensures s.steps <= r.steps
    ensures u.finalDecision.None? ==> r.finalDecision == s.finalDecision
    ensures u.finalDecision.Some? ==> r.finalDecision == u.finalDecision.value
    ensures u.message.None? ==> r.messageId == s.messageId && r.threadId == s.threadId && r.senderEmail == s.senderEmail
    ensures r.category == u.category.GetOr(s.category) && r.tone == u.tone.GetOr(s.tone)
    ensures r.isSpam == u.isSpam.GetOr(s.isSpam) && r.needsReply == u.needsReply.GetOr(s.needsReply)
    ensures r.priority == u.priority.GetOr(s.priority)
    ensures r.draftReply == u.draftReply.GetOr(s.draftReply)
    ensures r.retrievedContext == u.retrievedContext.GetOr(s.retrievedContext)
    ensures r.confidence == u.confidence.GetOr(s.confidence)
  {
    var m := u.message.GetOr(Message(s.messageId, s.threadId, s.senderEmail, s.subject, s.rawEmail));
    State(
      m.messageId, m.threadId, m.senderEmail, m.subject, m.rawEmail,
      u.category.GetOr(s.category),
      u.tone.GetOr(s.tone),
      u.isSpam.GetOr(s.isSpam),
      u.needsReply.GetOr(s.needsReply),
      u.priority.GetOr(s.priority),
      u.draftReply.GetOr(s.draftReply),
      u.retrievedContext.GetOr(s.retrievedContext),
      u.confidence.GetOr(s.confidence),
      u.finalDecision.GetOr(s.finalDecision),
      s.steps + NewSteps(u))
  }

  /**
   * A node that returns `state["steps"] + [x]` (retriever, generator) has its whole
   * earlier trail repeated by the merge, followed by `x`.
   */
  lemma CopiedStepsRepeat(s: State, u: Update, x: string)
    requires u.steps == Some(s.steps + [x])
    ensures Merge(s, u).steps == s.steps + s.steps + [x]
    ensures |Merge(s, u).steps| == 2 * |s.steps| + 1
  {
  }

  /** The message fields come from the update's message when it has one, and are kept otherwise. */
  lemma MergeMessage(s: State, u: Update)
    ensures var r := Merge(s, u);
            var m := u.message.GetOr(Message(s.messageId, s.threadId, s.senderEmail, s.subject, s.rawEmail));
            r.messageId == m.messageId && r.threadId == m.threadId && r.senderEmail == m.senderEmail
            && r.subject == m.subject && r.rawEmail == m.rawEmail
  {
  }
}
