/**
 * The dispatcher: a last gate on the draft, then a threaded reply through the mail
 * transport, then a history entry for the agent's own turn. The transport is a
 * parameter; the store is the in-place `Database.Store`.
 */
module SenderReplyNode {
  import opened Wrappers
  import opened Text
  import opened AgentState
  import opened Database

  const NoResponseMarker := "[NO RESPONSE"
  const SkippedStep := "Send skipped: Spam or empty draft."
  const ReplyPrefix := "reply_"
  const AssistantSender := "Assistant"

  /** The header and body fields of the outgoing message, and the thread it is sent into. */
  datatype OutgoingReply = OutgoingReply(
    to: string, subject: string, inReplyTo: string, references: string, threadId: string, body: string)

  /** What the transport did: a sent message id, an HTTP error, or any other exception. */
  datatype SendResult = Sent(id: string) | HttpFailure(error: string) | OtherFailure(error: string)

  /**
   * The node's precondition: the `in` test on line 13 needs a string draft whenever the
   * draft is truthy (the generator always leaves one).
   */
  predicate DraftIsText(s: State) {
    Truthy(s.draftReply) ==> s.draftReply.Str?
  }

  /** Line 13, negated: a non-empty draft without the no-response marker. */
  predicate Sendable(draft: Value)
    requires Truthy(draft) ==> draft.Str?
    ensures Sendable(draft) <==> draft.Str? && draft.s != [] && !Contains(draft.s, NoResponseMarker)
  {
    Truthy(draft) && !Contains(draft.s, NoResponseMarker)
  }

  /** Lines 23-40: the reply, addressed to the sender and threaded under the inbound message. */
  function BuildReply(s: State, draft: string): (m: OutgoingReply)
    ensures m.to == s.senderEmail && m.subject == "Re: " + s.subject
    ensures m.inReplyTo == s.messageId && m.references == s.messageId
    ensures m.threadId == s.threadId && m.body == draft
  {
    OutgoingReply(s.senderEmail, "Re: " + s.subject, s.messageId, s.messageId, s.threadId, draft)
  }

  /** The history row written after a successful send. */
  function ReplyEntry(s: State, draft: string): Entry {
    Entry(s.threadId, ReplyPrefix + s.messageId, AssistantSender, AssistantRole, draft)
  }

  /** What the node returns, and the row it has the store record (if any). */
  datatype Outcome = Outcome(update: Update, record: Option<Entry>)

  /** `sender_node` as a value: the update and the store write the source performs. */
  function SenderOutcome(s: State, send: OutgoingReply -> SendResult): (o: Outcome)
    requires DraftIsText(s)
    ensures o.update.steps.Some? && |o.update.steps.value| == 1
    ensures o.record.Some? <==> Sendable(s.draftReply) && send(BuildReply(s, s.draftReply.s)).Sent?
    ensures o.record.Some? ==> o.record.value == ReplyEntry(s, s.draftReply.s)
    ensures o.update.finalDecision.Some? <==> o.record.Some?
    ensures o.record.Some? ==> o.update.finalDecision == Some("SENT: " + send(BuildReply(s, s.draftReply.s)).id)
    ensures o.update == NoChange.(finalDecision := o.update.finalDecision, steps := o.update.steps)
  {
    if !Sendable(s.draftReply) then
      Outcome(NoChange.(steps := Some([SkippedStep])), None)
    else
      var draft := s.draftReply.s;
      match send(BuildReply(s, draft))
      case Sent(id) =>
        Outcome(
          NoChange.(finalDecision := Some("SENT: " + id), steps := Some(["Successfully sent reply to " + s.senderEmail])),
          Some(ReplyEntry(s, draft)))
      case HttpFailure(e) =>
        Outcome(NoChange.(steps := Some(["Failed to send email: " + e])), None)
      case OtherFailure(e) =>
        Outcome(NoChange.(steps := Some(["Unexpected error in sender_node: " + e])), None)
  }

  /** The store after the node: the recorded row, if any, logged. */
  function Apply(t: Tables, record: Option<Entry>): Tables {
    match record
    case None => t
    case Some(e) => LogEntry(t, e)
  }

  /** `sender_node` against the live store. */
  method SenderNode(db: Store, s: State, send: OutgoingReply -> SendResult) returns (u: Update)
    requires DraftIsText(s)
    modifies db
    ensures u == SenderOutcome(s, send).update
    ensures db.Snapshot() == Apply(old(db.Snapshot()), SenderOutcome(s, send).record)
  {
    if !Sendable(s.draftReply) {
      return NoChange.(steps := Some([SkippedStep]));
    }
    var draft := s.draftReply.s;
    var result := send(BuildReply(s, draft));
    match result {
      case Sent(id) =>
        db.LogInteraction(s.threadId, ReplyPrefix + s.messageId, AssistantSender, AssistantRole, draft);
        u := NoChange.(finalDecision := Some("SENT: " + id), steps := Some(["Successfully sent reply to " + s.senderEmail]));
      case HttpFailure(e) =>
        u := NoChange.(steps := Some(["Failed to send email: " + e]));
      case OtherFailure(e) =>
        u := NoChange.(steps := Some(["Unexpected error in sender_node: " + e]));
    }
  }

  // ---------------------------------------------------------------------------------
  // Properties

  /** The store changes only by the assistant's own row, whose id is never the inbound id. */
  lemma InboundIdNeverMarked(t: Tables, s: State, send: OutgoingReply -> SendResult)
    requires DraftIsText(s)
    ensures var after := Apply(t, SenderOutcome(s, send).record);
            && (s.messageId in after.processed <==> s.messageId in t.processed)
            && t.history <= after.history
            && forall i :: |t.history| <= i < |after.history| ==> after.history[i].role == AssistantRole
  {
    var o := SenderOutcome(s, send);
    if o.record.Some? {
      assert |ReplyPrefix + s.messageId| > |s.messageId|;
    }
  }

  /** After a successful send, the guard skips every later message in that thread. */
  lemma SentReplyBlocksThread(t: Tables, s: State, send: OutgoingReply -> SendResult, messageId: string, body: string)
    requires DraftIsText(s)
    requires SenderOutcome(s, send).record.Some?
    ensures ShouldSkip(Apply(t, SenderOutcome(s, send).record), messageId, s.threadId, body)
  {
    AssistantTurnBlocks(t, SenderOutcome(s, send).record.value, messageId, body);
  }

  /** An empty draft, or one carrying the marker, sends nothing and writes nothing. */
  lemma GateBlocks(t: Tables, s: State, send: OutgoingReply -> SendResult)
    requires DraftIsText(s)
    requires !Truthy(s.draftReply) || Contains(s.draftReply.s, NoResponseMarker)
    ensures SenderOutcome(s, send) == Outcome(NoChange.(steps := Some([SkippedStep])), None)
    ensures Apply(t, SenderOutcome(s, send).record) == t
  {
  }
}
