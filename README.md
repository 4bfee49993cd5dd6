# Autonomous email agent: a verified model of its decision core

The agent reads one unread e-mail per run and pushes it through a fixed graph of nodes.
The **reader** fetches the message. The **analyzer** asks a language model for a JSON verdict
(category, tone, spam, needs-reply, priority, draft). The **router** sends the message either
to **ignore** or along **retriever → generator → sender**. The retriever asks a vector store
and a formatting model for context. The generator drafts the reply with a primary model and
falls back to a second one. The sender posts the reply through the mail API and records it.
A small SQLite store holds two tables: the ids already handled and the per-thread
conversation history. Before anything is generated, a guard checks the store: a duplicate
id, the assistant having spoken last, or a repeated body stops the run.

This project models that core in Dafny:

| file | module | what it holds |
|---|---|---|
| `wrappers.dfy` | `Wrappers` | `Option` and `Result` |
| `text.dfy` | `Text` | the Python string operations the nodes use: `strip`, `in`, `split(sep)[0]`/`[1]`, `lower`/`upper`, `[:n]`, integer rendering |
| `agent_state.dfy` | `AgentState` | the shared record, Python values (`is True` vs truthiness), a node's partial update, and the merge that overwrites keys and concatenates `steps` |
| `database.dfy` | `Database` | the two tables as a value (`Tables`), the queries as functions on it, and a `Store` class whose methods update the tables in place |
| `analyzer_node.dfy` | `AnalyzerNode` | the analyzer: dedup check, fence stripping, sender override, defaults, fail-safe |
| `retriever_node.dfy` | `RetrieverNode` | the retriever: query construction, k = 1 search, result mapping |
| `response_generator_node.dfy` | `ResponseGeneratorNode` | context mode, prompt slots, the primary → fallback → placeholder chain |
| `sender_reply_node.dfy` | `SenderReplyNode` | the validation gate, reply headers, record-on-success, error paths |
| `log_ignore_node.dfy` | `LogIgnoreNode` | the ignore node |
| `workflow.dfy` | `Workflow` | the router, the edge table, the initial record, an interpreter for one run, and the end-to-end properties |

The language models, the JSON parser, the vector search, the mail reader and the mail sender
are parameters (`Services`), so every property holds whatever they answer. The history table
keeps rows in insertion order. That order stands for the `timestamp` order the queries sort by.

## Model

| member | source | states |
|---|---|---|
| AgentState.Merge | nodes/agent_state.py:5-37 | each of category, tone, `is_spam`, `needs_reply`, priority, draft, context, confidence and `final_decision` takes the returned value when the node returns that key and keeps the old one otherwise; `steps` becomes the old steps followed by the returned ones (`operator.add`); an update without message fields keeps the old ones |
| AgentState.CopiedStepsRepeat | nodes/agent_state.py:37 | a node that returns `state["steps"] + [x]` gets its whole earlier trail repeated by the concatenating merge |
| AgentState.MergeMessage | nodes/gmail_reader_node.py:60-67 | the message fields come from the reader's update when it returns them and are kept otherwise |
| Text.Strip | nodes/analyzer_node.py:58 | `str.strip()`: the result is no longer than its input, has no whitespace at either end, and is empty iff the input is all whitespace |
| AgentState.ReplyContent | nodes/analyzer_node.py:59 | a model reply yields text exactly when the call returned a message; a raised call or a `None` result is an error |
| Database.AlreadyHandled | nodes/database.py:41-50 | the empty id is never handled; any other id is handled iff it is in the processed table |
| Database.MarkProcessed | nodes/database.py:52-58 | after the insert the id is processed, no other id changes, the history is untouched, and an id already present leaves the store as it was (`INSERT OR IGNORE`) |
| Database.LogEntry | nodes/database.py:61-73 | logging marks the row's id processed and appends exactly that row after the existing history |
| Database.ThreadRows | nodes/database.py:82-86 | a row is in a thread's history iff it is in the table with that thread id |
| Database.ThreadRowsAppend | nodes/database.py:66-86 | a logged row lands at the end of its own thread's rows, oldest first, and leaves every other thread's rows unchanged |
| Database.LastEntryIsNewestRow | nodes/database.py:118-123 | the guard's `ORDER BY timestamp DESC LIMIT 1` row is the last row of the thread's `ASC` history, or none when the thread is empty |
| Database.ShouldSkip | nodes/database.py:112-114 | a processed id is skipped whatever the history says |
| Database.ShouldSkipByRows | nodes/database.py:101-142 | the guard is true iff the id is processed, or the thread's newest row is the assistant's, or its stripped content equals the stripped current body |
| Database.HandledImpliesSkip | nodes/database.py:112-114 | whenever `already_handled` holds, the guard holds too, for any thread and body |
| Database.EmptyIdLookups | nodes/database.py:41-50 | `already_handled("")` is false without a lookup, while the guard looks the empty id up literally |
| Database.UserTurnGuard | nodes/database.py:125-137 | when a person spoke last and the id is new, the guard is exactly the comparison of stripped bodies |
| Database.RepeatedContent | nodes/database.py:133-137 | after a user row `w` (such as "ping"), the same text padded with whitespace (" ping\n") is skipped and `w` plus one more non-space character ("ping!") is not |
| Database.AssistantTurnBlocks | nodes/database.py:128-131 | once an assistant row is logged in a thread, every message in that thread is skipped |
| Database.AssistantTurnPersists | nodes/database.py:118-131 | the block stays while only other threads are written to |
| Database.RenderEndsWithSeparator | nodes/database.py:92-94 | a rendered non-empty history ends with the `\n---\n` separator |
| Database.HistoryTextEmptyIff | nodes/database.py:96 | `"No previous history found."` comes back exactly when the thread has no rows |
| Database.HistoryAfterLog | nodes/database.py:61-96 | after logging a row its thread's history text gains exactly that row's line at the end, and other threads' text is unchanged |
| Database.Store.InitDb | nodes/database.py:5-30 | a fresh store has both tables empty |
| Database.Store.MarkAsProcessed | nodes/database.py:52-58 | updates the store in place as `MarkProcessed` says; a second call changes nothing |
| Database.Store.LogInteraction | nodes/database.py:61-73 | updates the store in place as `LogEntry` says; earlier history rows are kept |
| Database.Store.GetThreadHistory | nodes/database.py:76-96 | the loop's text is the thread's rows rendered oldest first as `ROLE: content\n---\n`, and is the marker iff the thread is empty |
| AnalyzerNode.Override | nodes/analyzer_node.py:67-70 | for a sender whose lowercased address contains "noreply" or "no-reply", `needs_reply` becomes false and `category` "Notification"; other senders' data is untouched |
| AnalyzerNode.Analyzer | nodes/analyzer_node.py:10-87 | every path returns exactly one step and a `needs_reply`; an automated sender always gets `needs_reply` false; a `final_decision` is returned iff the id was already handled, and then it is SKIPPED_ALREADY_PROCESSED with `needs_reply` false |
| AnalyzerNode.HandledIgnoresModel | nodes/analyzer_node.py:21-27 | an already-handled id gives the same result whatever the model and parser would answer: `needs_reply` false, SKIPPED_ALREADY_PROCESSED and the "Database check" step |
| AnalyzerNode.FailSafe | nodes/analyzer_node.py:85-87 | a failed call, a failed parse or a non-object result gives only `needs_reply` false and "Analysis failed; skipping email." |
| AnalyzerNode.ParsedVerdict | nodes/analyzer_node.py:65-83 | on a parsed object, missing keys take the defaults false/true/3/"" and `None` for category and tone, present keys (even null) are kept, and the override wins for automated senders |
| AnalyzerNode.StatusStep | nodes/analyzer_node.py:72-82 | the one step is "Deep Analysis: Target: " + sender + " \| Needs Reply: " + `needs_reply` after the override as Python prints it, "None" when absent |
| AnalyzerNode.Unfence | nodes/analyzer_node.py:61-62 | a reply without "```json" is kept as it is; with one, the extracted text has no whitespace at either end |
| AnalyzerNode.JsonText | nodes/analyzer_node.py:58-62 | the text handed to the parser has no whitespace at either end, and is the stripped reply when that has no fence |
| AnalyzerNode.UnfencedReplyKept | nodes/analyzer_node.py:59-63 | a reply without "```json" is parsed as the stripped reply itself |
| AnalyzerNode.FencedBodyExtracted | nodes/analyzer_node.py:62-63 | a reply `pre```json body```post` yields the stripped body |
| RetrieverNode.Query | nodes/retriever_node.py:38 | the query uses at most 1000 characters of the body |
| RetrieverNode.QueryUsesBodyPrefix | nodes/retriever_node.py:38 | two bodies that agree on their first 1000 characters give the same query |
| RetrieverNode.OnlyTopOneHitMatters | nodes/retriever_node.py:43-46 | the node's result depends on the search only through its answer for k = 1 |
| RetrieverNode.Retriever | nodes/retriever_node.py:14-70 | context and confidence are always set and nothing else but `steps` is returned; confidence is the string "1" iff context is text and 0.0 iff context is the empty list; when the search succeeds and the formatter answers, the context is that answer, confidence "1" and the step "RAG: Found <length> context chunks."; when the formatter returns nothing, empty context, 0.0 and "RAG: No relevant docs found.", each after the old steps |
| RetrieverNode.ErrorsDegrade | nodes/retriever_node.py:68-70 | a failed search or formatting call gives empty context, confidence 0.0 and no `steps` key |
| RetrieverNode.EmptyAnswerCountsAsFound | nodes/retriever_node.py:51-66 | an empty formatted answer still counts as found: context "" and confidence "1" |
| ResponseGeneratorNode.ContextMode | nodes/response_generator_node.py:13-24 | the mode is INTERNAL_REASONING, with the fixed no-documents text, iff the retrieved context has length 0; otherwise RAG_KNOWLEDGE_BASE with the context unchanged |
| ResponseGeneratorNode.BuildPrompt | nodes/response_generator_node.py:27-73 | the system message carries the mode; the human slots are history, context, subject, body in that order |
| ResponseGeneratorNode.Attempts | nodes/response_generator_node.py:58-97 | the primary's text is used iff it was built and answered; the fallback's iff the primary did not, nothing raised before the prompt was bound, and the fallback answered |
| ResponseGeneratorNode.Generator | nodes/response_generator_node.py:7-96 | the draft is always text; steps are the old steps plus one; a failure before the prompt is bound always ends in the placeholder |
| ResponseGeneratorNode.FallbackChain | nodes/response_generator_node.py:75-96 | the draft and step for each of primary success, fallback success and both failing, including the placeholder and "Generation failed: " step |
| ResponseGeneratorNode.SetupFailureGivesPlaceholder | nodes/response_generator_node.py:58-96 | a failure while building the primary model leaves the prompt unbound, so the fallback fails too and the placeholder is returned |
| SenderReplyNode.Sendable | nodes/sender_reply_node.py:13 | the gate lets a draft through iff it is non-empty text that does not contain "[NO RESPONSE" |
| SenderReplyNode.BuildReply | nodes/sender_reply_node.py:23-40 | the reply goes to the sender, with subject "Re: " + subject, `In-Reply-To` and `References` equal to the message id, in the same thread, with the draft as body |
| SenderReplyNode.SenderOutcome | nodes/sender_reply_node.py:9-67 | one step on every path; a row is recorded iff the draft passes the gate and the send succeeds, and it is the assistant's row under "reply_" + id; `final_decision` is set iff a row is recorded, to "SENT: " + the sent id |
| SenderReplyNode.SenderNode | nodes/sender_reply_node.py:9-67 | the node against the live store: returns that update and changes the store only by that recorded row |
| SenderReplyNode.InboundIdNeverMarked | nodes/sender_reply_node.py:49-55 | the inbound id's processed status never changes, earlier history is kept, and every added row is the assistant's |
| SenderReplyNode.SentReplyBlocksThread | nodes/sender_reply_node.py:49-55 | after a recorded send, the guard skips every later message in that thread |
| SenderReplyNode.GateBlocks | nodes/sender_reply_node.py:13-15 | a missing, empty or "[NO RESPONSE" draft sends nothing, records nothing and returns only the skip step |
| LogIgnoreNode.LogAndIgnore | nodes/log_ignore_node.py:4-11 | `final_decision` is "IGNORED"; exactly one step "Action: " + reason, the reason chosen by truthiness of `is_spam`; no other key |
| LogIgnoreNode.TruthySpamReportedAsSpam | nodes/log_ignore_node.py:5 | an `is_spam` the router does not treat as spam (a non-empty string) is still reported as "Spam Detected" |
| Workflow.RoutingLogic | nodes/workflow.py:37-60 | the label is always a key of the edge map; the guard forces "skip"; "spam" iff guard false and `is_spam is True`; "legit" iff guard false, not spam and `needs_reply` not literally False |
| Workflow.FixedNext | nodes/workflow.py:73-76 | each node other than the analyzer and END has exactly one outgoing fixed edge |
| Workflow.InitialState | nodes/workflow.py:100-116 | the record a run starts from: no steps, decision "PENDING", `is_spam` False, `needs_reply` True, priority 3, confidence 0.0, so the router says "legit" for it unless the guard fires |
| Workflow.RunFrom | nodes/workflow.py:31-76 | running from a node visits that node first and reaches END along edges of the graph |
| Workflow.Invoke | nodes/workflow.py:120 | `app.invoke(initial_state)` runs from the entry point to END along edges |
| Workflow.RunShapes | nodes/workflow.py:31-76 | every path from the entry to END along the edges is the ignore path or the reply path |
| Workflow.BothPathsAreRuns | nodes/workflow.py:31-76 | both paths are edge paths from the entry to END |
| Workflow.RouteTarget | nodes/workflow.py:63-71 | "legit" goes to the retriever; the other labels go to ignore |
| Workflow.InvokeReplies | nodes/workflow.py:63-76 | a "legit" run executes retriever, generator and sender and ends with the sender's store write |
| Workflow.InvokeIgnores | nodes/workflow.py:63-76 | any other run executes only the ignore node and leaves the store as it was |
| Workflow.RunsFollowTheGraph | nodes/workflow.py:31-76 | every run's trace is an edge path; it is the reply path iff the router said "legit" |
| Workflow.MessageCarried | nodes/gmail_reader_node.py:60-67 | the message fields the reader set are the ones every later node sees |
| Workflow.StoreEffect | nodes/sender_reply_node.py:49-55 | a run either leaves the store alone or adds exactly the assistant's row "reply_" + inbound id for its thread; the inbound id is never marked processed |
| Workflow.FinalDecisions | nodes/workflow.py:100-116 | a run ends "IGNORED", "PENDING" or "SENT: " + id, never SKIPPED_ALREADY_PROCESSED, and ends "SENT: ..." iff it wrote to the store |
| Workflow.PendingUntilDispatch | nodes/workflow.py:100-116 | on the reply path the record still says "PENDING" when it reaches the sender |
| Workflow.GuardedMessageIgnored | nodes/workflow.py:42-44 | a message the guard flags runs the ignore path, writes nothing and ends "IGNORED" |
| Workflow.AutomatedSenderIgnored | nodes/analyzer_node.py:68-70 | a "noreply"/"no-reply" sender is ignored and never answered, whatever the models say |
| Workflow.ReplyEndsTheThread | nodes/sender_reply_node.py:49-55 | after a run that sent a reply, the next message in the same thread is ignored and the store is left alone |
| Workflow.DraftWithoutContext | nodes/response_generator_node.py:13-80 | when the search fails and the primary answers, the draft is written in INTERNAL_REASONING mode and is that answer |
| Workflow.AnsweredWithoutContext | nodes/workflow.py:37-76 | a legitimate question with no knowledge-base context is drafted without documents, sent, ends "SENT: " + id, and the store gains exactly the assistant's row |

## Left out

- Mail transport: fetching, MIME and base64 decoding, OAuth (gmail_reader_node.py, email_services.py). The reader's outcome is an input, `Fetched(message)` or `ReadError(error)`.
- Language models, the vector store, the embedding model and `json.loads` are inputs. `json.loads` is a function from text to an optional document. A document is an object (a map of values) or some other JSON value.
- The `print` output, `load_dotenv` and `init_db` call of the `__main__` block in workflow.py are not modelled, nor is its handling of exceptions that escape `app.invoke`. The block invokes the graph once; the model covers that call (`Workflow.Invoke`) and its initial record (lines 100-116).
- LangGraph is replaced by `Workflow.RunFrom`, an interpreter over the same edge table. Compiling the graph and exceptions escaping a node are not modelled.
- SQLite is replaced by the `Tables` value and the `Store` class. Insertion order stands for `timestamp` order. Two rows that share a `CURRENT_TIMESTAMP` second may come back in either order in the source, and the model fixes one. The `processed_at`, `id` and `timestamp` columns are not modelled. Neither are connection failures.
- Database.Store.LogInteraction: the send and the log are not one transaction. A crash or database error between them is not modelled.
- Text.Lower and Text.Upper map ASCII letters only. Python's full Unicode case mapping is not modelled.
- `.get` defaults whose key is always present are not modelled: subject 'No Subject', body '', tone 'Professional and helpful', subject 'Follow up'. The initial record sets every key, so these defaults never apply in a run.
- ResponseGeneratorNode.Generator: `state['category']` and `state.get('tone')` are spliced into the system template by an f-string (lines 27-42), so braces in them can make the template fail to build or to format. That failure counts as a failure before the prompt is bound (`primarySetup`). The brace scan itself is not modelled. The four values passed to `format_messages` (lines 68-73) are substituted as values and cannot cause it.
- ResponseGeneratorNode.BuildPrompt: the fixed persona and constraint text of the two messages is not reproduced. Only the values placed in them and their order are.
- SenderReplyNode.SenderOutcome requires the draft to be text or falsy. A truthy draft that is not iterable (an int, a float, `True`) raises `TypeError` at the `in` test of line 13, outside the node's `try`. A list or dict draft passes that test and fails inside the `try` at `set_content` (line 24), giving the "Unexpected error in sender_node" step. The model covers neither case. In a run the generator always stores a text draft before the sender runs.
- `priority` is not checked to lie in 1-5. `final_reply` is declared in agent_state.py but no node sets it, so it is not modelled.
- AnalyzerNode.FencedBodyExtracted assumes no backticks outside the fence. With more backticks, `split` may cut elsewhere; `Unfence` models `split` exactly, and only the lemma is narrower.
- Three facts of the code that a reader might not expect: the inbound id is never marked processed, only "reply_" + id is; an empty formatted answer still gives confidence "1"; the confidence is the string "1" or the float 0.0, never a number in between.
