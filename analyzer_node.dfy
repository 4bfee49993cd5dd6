/**
 * The classifier node: skips an already-handled id, otherwise asks a chat model for a
 * JSON verdict, strips a Markdown fence, applies the no-reply override and fills in
 * defaults. The model call and `json.loads` are parameters.
 */
module AnalyzerNode {
  import opened Wrappers
  import opened Text
  import opened AgentState
  import opened Database

  /** What `json.loads` produced: a JSON object, or any other JSON value. */
  datatype JsonDoc = Object(fields: map<string, Value>) | NotObject

  /** The three message fields the fixed classification prompt is built from. */
  datatype Request = Request(sender: string, subject: string, body: string)

  const Fence := "```json"
  const Ticks := "```"
  const SkippedDecision := "SKIPPED_ALREADY_PROCESSED"
  const FailureStep := "Analysis failed; skipping email."

  /** The fail-safe result: do not reply, and say so in the trail. */
  const Failed := NoChange.(needsReply := Some(Bool(false)), steps := Some([FailureStep]))

  /** Lines 62-63: the text between the first "```json" and the following "```", trimmed. */
  function Unfence(response: string): (r: string)
    ensures !Contains(response, Fence) ==> r == response
    ensures Contains(response, Fence) ==> r == [] || (!IsSpace(r[0]) && !IsSpace(r[|r| - 1]))
  {
    if Contains(response, Fence) then Strip(SegmentBefore(SegmentAfter(response, Fence), Ticks))
    else response
  }

  /** The text handed to `json.loads`: the trimmed reply, unfenced. */
  function JsonText(content: string): (r: string)
    ensures r == [] || (!IsSpace(r[0]) && !IsSpace(r[|r| - 1]))
    ensures !Contains(Strip(content), Fence) ==> r == Strip(content)
  {
    Unfence(Strip(content))
  }

  /** The sender override: the lowercased address contains "noreply" or "no-reply". */
  predicate IsAutomatedSender(sender: string) {
    Contains(Lower(sender), "noreply") || Contains(Lower(sender), "no-reply")
  }

  /** `data.get(key, default)`: a present key keeps its value, even JSON null. */
  function Get(data: map<string, Value>, key: string, default: Value): Value {
    if key in data then data[key] else default
  }

  /** Lines 68-70: the business rule that overrides the model for automated senders. */
  function Override(data: map<string, Value>, sender: string): (r: map<string, Value>)
    ensures IsAutomatedSender(sender) ==>
              && "needs_reply" in r && r["needs_reply"] == Bool(false)
              && "category" in r && r["category"] == Str("Notification")
    ensures !IsAutomatedSender(sender) ==> r == data
    ensures forall k :: k in data ==> k in r
  {
    if IsAutomatedSender(sender) then data["needs_reply" := Bool(false)]["category" := Str("Notification")]
    else data
  }

  /** Lines 72-83: the update built from the parsed (and overridden) object. */
  function Verdict(data: map<string, Value>, sender: string): Update {
    var status := "Target: " + sender + " | Needs Reply: " + Show(Get(data, "needs_reply", Null));
    NoChange.(
      category := Some(Get(data, "category", Null)),
      tone := Some(Get(data, "tone", Null)),
      isSpam := Some(Get(data, "is_spam", Bool(false))),
      needsReply := Some(Get(data, "needs_reply", Bool(true))),
      priority := Some(Get(data, "priority", Int(3))),
      draftReply := Some(Get(data, "draft_reply", Str(""))),
      steps := Some(["Deep Analysis: " + status]))
  }

  /** `analyzer` */
  function Analyzer(t: Tables, s: State, llm: Request -> Reply, parse: string -> Option<JsonDoc>): (u: Update)
    ensures u.steps.Some? && |u.steps.value| == 1
    ensures u.needsReply.Some?
    ensures IsAutomatedSender(s.senderEmail) ==> u.needsReply == Some(Bool(false))
    ensures u.finalDecision.Some? <==> AlreadyHandled(t, s.messageId)
    ensures u.finalDecision.Some? ==> u.finalDecision.value == SkippedDecision && u.needsReply == Some(Bool(false))
    ensures u.message.None? && u.retrievedContext.None? && u.confidence.None?
  {
    if AlreadyHandled(t, s.messageId) then
      NoChange.(
        needsReply := Some(Bool(false)),
        finalDecision := Some(SkippedDecision),
        steps := Some(["Database check: " + s.messageId + " was already replied."]))
    else
      match ReplyContent(llm(Request(s.senderEmail, s.subject, s.rawEmail)))
      case Failure(_) => Failed
      case Success(content) =>
        match parse(JsonText(content))
        case Some(Object(data)) => Verdict(Override(data, s.senderEmail), s.senderEmail)
        case _ => Failed
  }

  // ---------------------------------------------------------------------------------
  // Properties

  /**
   * An already-handled id is answered from the store alone: whatever the model and the
   * parser would say, the node returns `needs_reply` false, SKIPPED_ALREADY_PROCESSED and
   * the database-check step.
   */
  lemma HandledIgnoresModel(t: Tables, s: State, llm1: Request -> Reply, parse1: string -> Option<JsonDoc>,
                            llm2: Request -> Reply, parse2: string -> Option<JsonDoc>)
    requires AlreadyHandled(t, s.messageId)
    ensures Analyzer(t, s, llm1, parse1) == Analyzer(t, s, llm2, parse2)
    ensures Analyzer(t, s, llm1, parse1) ==
              NoChange.(needsReply := Some(Bool(false)), finalDecision := Some(SkippedDecision),
                        steps := Some(["Database check: " + s.messageId + " was already replied."]))
  {
  }

  /** Any failure of the call or of the parse, or a parsed value that is not an object, yields only the fail-safe. */
  lemma FailSafe(t: Tables, s: State, llm: Request -> Reply, parse: string -> Option<JsonDoc>)
    requires !AlreadyHandled(t, s.messageId)
    requires var r := llm(Request(s.senderEmail, s.subject, s.rawEmail));
             !r.Answer? || !parse(JsonText(r.content)).Some? || !parse(JsonText(r.content)).value.Object?
    ensures Analyzer(t, s, llm, parse) == Failed
    ensures Failed == NoChange.(needsReply := Some(Bool(false)), steps := Some([FailureStep]))
  {
  }

  /** On a parsed object the node's update is the verdict on the overridden data. */
  lemma ObjectPath(t: Tables, s: State, llm: Request -> Reply, parse: string -> Option<JsonDoc>, data: map<string, Value>)
    requires !AlreadyHandled(t, s.messageId)
    requires var r := llm(Request(s.senderEmail, s.subject, s.rawEmail));
             r.Answer? && parse(JsonText(r.content)) == Some(Object(data))
    ensures Analyzer(t, s, llm, parse) == Verdict(Override(data, s.senderEmail), s.senderEmail)
  {
  }

  /** The verdict's fields, key by key. */
  lemma VerdictFields(d: map<string, Value>, sender: string)
    ensures var u := Verdict(d, sender);
            && u.category == Some(Get(d, "category", Null)) && u.tone == Some(Get(d, "tone", Null))
            && u.isSpam == Some(Get(d, "is_spam", Bool(false))) && u.needsReply == Some(Get(d, "needs_reply", Bool(true)))
            && u.priority == Some(Get(d, "priority", Int(3))) && u.draftReply == Some(Get(d, "draft_reply", Str("")))
            && u.finalDecision.None?
            && u.steps == Some(["Deep Analysis: " + ("Target: " + sender + " | Needs Reply: " + Show(Get(d, "needs_reply", Null)))])
  {
  }

  /** The override touches only `needs_reply` and `category`. */
  lemma OverrideKeeps(data: map<string, Value>, sender: string, k: string, default: Value)
    requires k != "needs_reply" && k != "category"
    ensures Get(Override(data, sender), k, default) == Get(data, k, default)
  {
  }

  lemma KeysDiffer()
    ensures "is_spam" != "needs_reply" && "is_spam" != "category"
    ensures "priority" != "needs_reply" && "priority" != "category"
    ensures "draft_reply" != "needs_reply" && "draft_reply" != "category"
    ensures "tone" != "needs_reply" && "tone" != "category"
  {
    assert "is_spam"[0] == 'i' && "priority"[0] == 'p' && "draft_reply"[0] == 'd' && "tone"[0] == 't';
    assert "needs_reply"[0] == 'n' && "category"[0] == 'c';
  }

  /** The status step names the sender and `data.get('needs_reply')` after the override ("None" when absent). */
  lemma StatusStep(t: Tables, s: State, llm: Request -> Reply, parse: string -> Option<JsonDoc>, data: map<string, Value>)
    requires !AlreadyHandled(t, s.messageId)
    requires var r := llm(Request(s.senderEmail, s.subject, s.rawEmail));
             r.Answer? && parse(JsonText(r.content)) == Some(Object(data))
    ensures var shown := if IsAutomatedSender(s.senderEmail) then "False"
                         else if "needs_reply" in data then Show(data["needs_reply"]) else "None";
            Analyzer(t, s, llm, parse).steps == Some(["Deep Analysis: " + ("Target: " + s.senderEmail + " | Needs Reply: " + shown)])
  {
    ObjectPath(t, s, llm, parse, data);
    VerdictFields(Override(data, s.senderEmail), s.senderEmail);
  }

  /** Missing keys take their defaults; present keys, even null, are kept; the override wins for automated senders. */
  lemma ParsedVerdict(t: Tables, s: State, llm: Request -> Reply, parse: string -> Option<JsonDoc>, data: map<string, Value>)
    requires !AlreadyHandled(t, s.messageId)
    requires var r := llm(Request(s.senderEmail, s.subject, s.rawEmail));
             r.Answer? && parse(JsonText(r.content)) == Some(Object(data))
    ensures var u := Analyzer(t, s, llm, parse);
            && u.finalDecision.None?
            && u.isSpam == Some(if "is_spam" in data then data["is_spam"] else Bool(false))
            && u.priority == Some(if "priority" in data then data["priority"] else Int(3))
            && u.draftReply == Some(if "draft_reply" in data then data["draft_reply"] else Str(""))
            && u.tone == Some(if "tone" in data then data["tone"] else Null)
            && (IsAutomatedSender(s.senderEmail) ==> u.category == Some(Str("Notification")))
            && (!IsAutomatedSender(s.senderEmail) ==>
                  && u.category == Some(if "category" in data then data["category"] else Null)
                  && u.needsReply == Some(if "needs_reply" in data then data["needs_reply"] else Bool(true)))
  {
    var d := Override(data, s.senderEmail);
    ObjectPath(t, s, llm, parse, data);
    VerdictFields(d, s.senderEmail);
    KeysDiffer();
    OverrideKeeps(data, s.senderEmail, "is_spam", Bool(false));
    OverrideKeeps(data, s.senderEmail, "priority", Int(3));
    OverrideKeeps(data, s.senderEmail, "draft_reply", Str(""));
    OverrideKeeps(data, s.senderEmail, "tone", Null);
  }

  /** A reply without a fence is parsed as the trimmed reply itself. */
  lemma UnfencedReplyKept(content: string)
    requires !Contains(Strip(content), Fence)
    ensures JsonText(content) == Strip(content)
  {
  }

  /** A fenced reply `pre ```json body ``` post` (no backticks outside the fence) yields the trimmed body. */
  lemma FencedBodyExtracted(pre: string, body: string, post: string)
    requires NoBackticks(pre) && NoBackticks(body) && NoBackticks(post)
    ensures Unfence(pre + Fence + body + Ticks + post) == Strip(body)
  {
    var u := body + Ticks + post;
    var r := pre + (Fence + u);
    assert r == pre + Fence + body + Ticks + post;
    assert r[|pre|..|pre| + |Fence|] == Fence;
    assert forall i :: 0 <= i < |pre| ==> r[i] == pre[i];
    forall j | 0 <= j < |pre| ensures !OccursAt(r, Fence, j) {
      if OccursAt(r, Fence, j) { OccursAtHead(r, Fence, j); }
    }
    FindIsFirst(r, Fence, |pre|);
    assert r[|pre| + |Fence|..] == u;
    TicksEndBody(body, post);
  }

  /** Inside `body ``` post`, the first "```" ends the body and no "```json" starts before it. */
  lemma TicksEndBody(body: string, post: string)
    requires NoBackticks(body) && NoBackticks(post)
    ensures SegmentBefore(SegmentBefore(body + Ticks + post, Fence), Ticks) == body
  {
    var u := body + Ticks + post;
    var n := |body|;
    assert u[n..n + |Ticks|] == Ticks;
    assert forall i :: 0 <= i < n ==> u[i] == body[i];
    assert forall i :: n + 3 <= i < |u| ==> u[i] == post[i - n - 3];
    forall j | 0 <= j < n ensures !OccursAt(u, Ticks, j) {
      if OccursAt(u, Ticks, j) { OccursAtHead(u, Ticks, j); }
    }
    FindIsFirst(u, Ticks, n);
    forall j | 0 <= j ensures !OccursAt(body, Ticks, j) {
      if OccursAt(body, Ticks, j) { OccursAtHead(body, Ticks, j); }
    }
    var f := Find(u, Fence);
    if f.Some? {
      var k := f.value;
      FenceStartsWithTicks(u, k);
      assert u[..k] == body;
    }
  }

  /** Where "```json" occurs, three backticks occur. */
  lemma FenceStartsWithTicks(u: string, k: nat)
    requires OccursAt(u, Fence, k)
    ensures k + 3 <= |u| && u[k] == '`' && u[k + 1] == '`' && u[k + 2] == '`'
  {
    assert u[k..k + |Fence|] == Fence;
    assert u[k..k + |Fence|][1] == u[k + 1];
    assert u[k..k + |Fence|][2] == u[k + 2];
    OccursAtHead(u, Fence, k);
  }
}
