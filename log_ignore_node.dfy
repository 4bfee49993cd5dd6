/** The terminal node for spam and for messages that need no reply. */
module LogIgnoreNode {
  import opened Wrappers
  import opened AgentState

  const SpamReason := "Spam Detected"
  const NoReplyReason := "Informational/No-Reply email skipped"
  const IgnoredDecision := "IGNORED"

  /**
   * `log_and_ignore_node`: records why the message was dropped. The reason tests
   * `is_spam` for truthiness, where the router tests `is True`.
   */
  function LogAndIgnore(s: State): (u: Update)
    ensures u.finalDecision == Some(IgnoredDecision)
    ensures u.steps == Some(["Action: " + (if Truthy(s.isSpam) then SpamReason else NoReplyReason)])
    ensures u == NoChange.(finalDecision := u.finalDecision, steps := u.steps)
  {
    var reason := if Truthy(s.isSpam) then SpamReason else NoReplyReason;
    NoChange.(finalDecision := Some(IgnoredDecision), steps := Some(["Action: " + reason]))
  }

  /** A spam flag the router does not treat as spam can still be reported as spam. */
  lemma TruthySpamReportedAsSpam(s: State)
    requires s.isSpam == Str("yes")
    ensures !IsTrue(s.isSpam)
    ensures LogAndIgnore(s).steps == Some(["Action: " + SpamReason])
  {
  }
}
