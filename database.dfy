/**
 * The agent's persistent memory: a table of processed message ids (insert-or-ignore)
 * and an append-only conversation history. Rows come back in insertion order, which
 * stands for the timestamp order the queries sort by.
 */
module Database {
  import opened Wrappers
  import opened Text

  /** The role the dispatcher records for the agent's own replies. */
  const AssistantRole := "assistant"

  /** What `get_thread_history` renders for a thread without entries. */
  const NoHistory := "No previous history found."

  /** One row of `conversation_history`. */
  datatype Entry = Entry(threadId: string, messageId: string, sender: string, role: string, content: string)

  /** The two tables: `processed_messages` keyed by id, and `conversation_history` in insertion order. */
  datatype Tables = Tables(processed: set<string>, history: seq<Entry>)

  /** `already_handled`: an empty id is never looked up and never counts as handled. */
  predicate AlreadyHandled(t: Tables, msgId: string)
    ensures msgId == "" ==> !AlreadyHandled(t, msgId)
    ensures msgId != "" ==> (AlreadyHandled(t, msgId) <==> msgId in t.processed)
  {
    msgId != "" && msgId in t.processed
  }

  /** `INSERT OR IGNORE INTO processed_messages`. */
  function MarkProcessed(t: Tables, msgId: string): (r: Tables)
    ensures msgId in r.processed && r.history == t.history
    ensures r.processed - {msgId} == t.processed - {msgId}
    ensures msgId in t.processed ==> r == t
  {
    Tables(t.processed + {msgId}, t.history)
  }

  /** `log_interaction`: blacklists the entry's id and appends the entry to the history. */
  function LogEntry(t: Tables, e: Entry): (r: Tables)
    ensures r == Tables(MarkProcessed(t, e.messageId).processed, t.history + [e])
  {
    Tables(t.processed + {e.messageId}, t.history + [e])
  }

  /** `SELECT ... WHERE thread_id = ? ORDER BY timestamp ASC`: the thread's rows, oldest first. */
  function ThreadRows(h: seq<Entry>, thread: string): (r: seq<Entry>)
    ensures forall e :: e in r <==> e in h && e.threadId == thread
  {
    if h == [] then []
    else (if h[0].threadId == thread then [h[0]] else []) + ThreadRows(h[1..], thread)
  }

  /** `SELECT ... ORDER BY timestamp DESC LIMIT 1`: the thread's most recent row, if any. */
  function LastEntry(h: seq<Entry>, thread: string): Option<Entry>
  {
    if h == [] then None
    else if h[|h| - 1].threadId == thread then Some(h[|h| - 1])
    else LastEntry(h[..|h| - 1], thread)
  }

  /** `should_skip_message`: duplicate id, then assistant spoke last, then repeated trimmed content. */
  function ShouldSkip(t: Tables, messageId: string, threadId: string, currentBody: string): (r: bool)
    ensures messageId in t.processed ==> r
  {
    if messageId in t.processed then true
    else
      match LastEntry(t.history, threadId)
      case None => false
      case Some(last) => last.role == AssistantRole || Strip(currentBody) == Strip(last.content)
  }

  /** One history row as the prompt shows it: `ROLE: content` followed by a separator. */
  function Line(e: Entry): string {
    Upper(e.role) + ": " + e.content + "\n---\n"
  }

  /** The rows rendered one after another, oldest first. */
  function Render(rows: seq<Entry>): string {
    if rows == [] then "" else Render(rows[..|rows| - 1]) + Line(rows[|rows| - 1])
  }

  /** `get_thread_history`: the rendered rows of the thread, or the no-history marker. */
  function HistoryText(t: Tables, thread: string): string {
    var text := Render(ThreadRows(t.history, thread));
    if text == "" then NoHistory else text
  }

  // ---------------------------------------------------------------------------------
  // Properties of the queries

  /** A new row lands at the end of its own thread's rows and leaves other threads alone. */
  lemma {:induction false} ThreadRowsAppend(h: seq<Entry>, e: Entry, thread: string)
    ensures ThreadRows(h + [e], thread) == ThreadRows(h, thread) + (if e.threadId == thread then [e] else [])
  {
    if h != [] {
      assert (h + [e])[1..] == h[1..] + [e];
      ThreadRowsAppend(h[1..], e, thread);
    }
  }

  /** The guard's "last speaker" is the newest row of the history the generator sees. */
  lemma {:induction false} LastEntryIsNewestRow(h: seq<Entry>, thread: string)
    ensures var rows := ThreadRows(h, thread);
            LastEntry(h, thread) == if rows == [] then None else Some(rows[|rows| - 1])
  {
    if h != [] {
      var init := h[..|h| - 1];
      assert h == init + [h[|h| - 1]];
      LastEntryIsNewestRow(init, thread);
      ThreadRowsAppend(init, h[|h| - 1], thread);
    }
  }

  /** The guard stated over the thread's rows instead of the descending lookup. */
  lemma ShouldSkipByRows(t: Tables, messageId: string, threadId: string, currentBody: string)
    ensures var rows := ThreadRows(t.history, threadId);
            ShouldSkip(t, messageId, threadId, currentBody) <==>
              || messageId in t.processed
              || (rows != [] && (rows[|rows| - 1].role == AssistantRole
                                 || Strip(currentBody) == Strip(rows[|rows| - 1].content)))
  {
    LastEntryIsNewestRow(t.history, threadId);
  }

  /** `already_handled` implies the guard, for any thread and body. */
  lemma HandledImpliesSkip(t: Tables, msgId: string, threadId: string, currentBody: string)
    requires AlreadyHandled(t, msgId)
    ensures ShouldSkip(t, msgId, threadId, currentBody)
  {
  }

  /** The two lookups differ on the empty id: the guard looks it up literally. */
  lemma EmptyIdLookups(t: Tables, threadId: string, currentBody: string)
    requires "" in t.processed
    ensures !AlreadyHandled(t, "") && ShouldSkip(t, "", threadId, currentBody)
  {
  }

  /** A rendered history that is not empty ends with the row separator. */
  lemma {:induction false} RenderEndsWithSeparator(rows: seq<Entry>)
    requires rows != []
    ensures var text := Render(rows);
            |text| >= 5 && text[|text| - 5..] == "\n---\n"
  {
    var text := Render(rows);
    var last := Line(rows[|rows| - 1]);
    assert text == Render(rows[..|rows| - 1]) + last;
    assert last[|last| - 5..] == "\n---\n";
    assert text[|text| - 5..] == last[|last| - 5..];
  }

  /** The marker comes back exactly when the thread has no rows. */
  lemma HistoryTextEmptyIff(t: Tables, thread: string)
    ensures HistoryText(t, thread) == NoHistory <==> ThreadRows(t.history, thread) == []
  {
    var rows := ThreadRows(t.history, thread);
    if rows != [] {
      RenderEndsWithSeparator(rows);
      var text := Render(rows);
      assert text[|text| - 1] == '\n';
      assert NoHistory[|NoHistory| - 1] == '.';
    }
  }

  /** Logging a row adds exactly its line at the end of its thread's history and nothing elsewhere. */
  lemma HistoryAfterLog(t: Tables, e: Entry, thread: string)
    ensures var before := Render(ThreadRows(t.history, thread));
            HistoryText(LogEntry(t, e), thread) ==
              if e.threadId == thread then before + Line(e) else HistoryText(t, thread)
  {
    ThreadRowsAppend(t.history, e, thread);
    var rows := ThreadRows(t.history, thread);
    assert LogEntry(t, e).history == t.history + [e];
    if e.threadId == thread {
      assert ThreadRows(LogEntry(t, e).history, thread) == rows + [e];
      assert (rows + [e])[..|rows|] == rows;
      assert Render(rows + [e]) == Render(rows) + Line(e);
      assert |Line(e)| > 0;
    } else {
      assert ThreadRows(LogEntry(t, e).history, thread) == rows;
    }
  }

  /** Once the assistant has spoken in a thread, every message there is skipped. */
  lemma AssistantTurnBlocks(t: Tables, e: Entry, messageId: string, currentBody: string)
    requires e.role == AssistantRole
    ensures ShouldSkip(LogEntry(t, e), messageId, e.threadId, currentBody)
  {
  }

  /** ... and stays skipped while only other threads are written to. */
  lemma {:induction false} AssistantTurnPersists(t: Tables, e: Entry, later: seq<Entry>, messageId: string, currentBody: string)
    requires e.role == AssistantRole
    requires forall x :: x in later ==> x.threadId != e.threadId
    ensures ShouldSkip(Tables(t.processed, t.history + [e] + later), messageId, e.threadId, currentBody)
  {
    if later == [] {
      assert t.history + [e] + later == t.history + [e];
    } else {
      var init := later[..|later| - 1];
      assert t.history + [e] + later == (t.history + [e] + init) + [later[|later| - 1]];
      AssistantTurnPersists(t, e, init, messageId, currentBody);
    }
  }

  /** When a person spoke last, the guard is exactly the trimmed-content comparison. */
  lemma UserTurnGuard(t: Tables, messageId: string, threadId: string, currentBody: string, last: Entry)
    requires messageId !in t.processed
    requires LastEntry(t.history, threadId) == Some(last) && last.role != AssistantRole
    ensures ShouldSkip(t, messageId, threadId, currentBody) <==> Strip(currentBody) == Strip(last.content)
  {
  }

  /**
   * Repeated content, after a user row `w` (say "ping"): the same word with whitespace
   * around it (" ping\n") is skipped, the word with one more character ("ping!") is not.
   */
  lemma RepeatedContent(t: Tables, thread: string, messageId: string, w: string, a: char, b: char, c: char)
    requires t == Tables({}, [Entry(thread, "m1", "alice", "user", w)])
    requires w != [] && !IsSpace(w[0]) && !IsSpace(w[|w| - 1])
    requires IsSpace(a) && IsSpace(b) && !IsSpace(c)
    ensures ShouldSkip(t, messageId, thread, [a] + w + [b])
    ensures !ShouldSkip(t, messageId, thread, w + [c])
  {
    var last := Entry(thread, "m1", "alice", "user", w);
    assert LastEntry(t.history, thread) == Some(last);
    assert last.role[0] != AssistantRole[0];
    UserTurnGuard(t, messageId, thread, [a] + w + [b], last);
    UserTurnGuard(t, messageId, thread, w + [c], last);
    StripPadded(w, a, b);
    StripClean(w);
    StripClean(w + [c]);
  }

  /** Rendering one more row appends its line. */
  lemma RenderSnoc(rows: seq<Entry>, i: nat)
    requires i < |rows|
    ensures Render(rows[..i + 1]) == Render(rows[..i]) + Line(rows[i])
  {
    assert rows[..i + 1][..i] == rows[..i];
  }

  // ---------------------------------------------------------------------------------
  // The database itself, updated in place

  class Store {
    var processed: set<string>
    var history: seq<Entry>

    function Snapshot(): Tables
      reads this
    {
      Tables(processed, history)
    }

    /** `init_db` on a new file: both tables exist and are empty. */
    constructor InitDb()
      ensures Snapshot() == Tables({}, [])
    {
      processed := {};
      history := [];
    }

    /** `mark_as_processed`: idempotent insert; the history is untouched. */
    method MarkAsProcessed(msgId: string)
      modifies this
      ensures Snapshot() == MarkProcessed(old(Snapshot()), msgId)
      ensures old(msgId in processed) ==> Snapshot() == old(Snapshot())
    {
      processed := processed + {msgId};
    }

    /** `log_interaction`: both inserts, in the source's order. */
    method LogInteraction(threadId: string, msgId: string, sender: string, role: string, content: string)
      modifies this
      ensures Snapshot() == LogEntry(old(Snapshot()), Entry(threadId, msgId, sender, role, content))
      ensures old(history) <= history
    {
      processed := processed + {msgId};
      history := history + [Entry(threadId, msgId, sender, role, content)];
    }

    /** `get_thread_history`: accumulates the thread's lines, oldest first. */
    method GetThreadHistory(threadId: string) returns (text: string)
      ensures text == HistoryText(Snapshot(), threadId)
      ensures text == NoHistory <==> ThreadRows(history, threadId) == []
    {
      var rows := ThreadRows(history, threadId);
      var historyText := "";
      for i := 0 to |rows|
        invariant historyText == Render(rows[..i])
      {
        RenderSnoc(rows, i);
        historyText := historyText + Line(rows[i]);
      }
      assert rows[..|rows|] == rows;
      text := if historyText != "" then historyText else NoHistory;
      HistoryTextEmptyIff(Snapshot(), threadId);
    }
  }
}
