/**
 * The graph: the router's ordered decision, the edge table, the initial record, and an
 * interpreter that runs one inbound message through the nodes along the table.
 */
module Workflow {
  import opened Wrappers
  import opened Text
  import opened AgentState
  import opened Database
  import opened AnalyzerNode
  import opened RetrieverNode
  import opened ResponseGeneratorNode
  import opened SenderReplyNode
  import opened LogIgnoreNode

  // ---------------------------------------------------------------------------------
  // Routing

  /**
   * `routing_logic`: the store guard first, then a spam flag that is literally `True`,
   * then a reply flag that is literally `False`; anything else proceeds.
   */
  function RoutingLogic(t: Tables, s: State): (route: string)
    ensures route in ConditionalEdges
    ensures ShouldSkip(t, s.messageId, s.threadId, s.rawEmail) ==> route == "skip"
    ensures route == "spam" <==> !ShouldSkip(t, s.messageId, s.threadId, s.rawEmail) && IsTrue(s.isSpam)
    ensures route == "legit" <==>
              !ShouldSkip(t, s.messageId, s.threadId, s.rawEmail) && !IsTrue(s.isSpam) && !IsFalse(s.needsReply)
  {
    if ShouldSkip(t, s.messageId, s.threadId, s.rawEmail) then "skip"
    else if IsTrue(s.isSpam) then "spam"
    else if IsFalse(s.needsReply) then "skip"
    else "legit"
  }

  // ---------------------------------------------------------------------------------
  // The graph

  datatype Node = Start | Reader | Analyzer | Retriever | Generator | Sender | Ignore | End

  /** The conditional edges out of the analyzer, keyed by the router's label. */
  const ConditionalEdges: map<string, Node> := map["spam" := Ignore, "skip" := Ignore, "legit" := Retriever]

  /** The entry point and the plain edges. */
  const FixedEdges: set<(Node, Node)> :=
    {(Start, Reader), (Reader, Analyzer), (Retriever, Generator), (Generator, Sender), (Sender, End), (Ignore, End)}

  predicate Edge(a: Node, b: Node) {
    (a, b) in FixedEdges || (a == Analyzer && b in ConditionalEdges.Values)
  }

  /** The successor along a plain edge. */
  function FixedNext(n: Node): (m: Node)
    requires n != Analyzer && n != End
    ensures (n, m) in FixedEdges
    ensures forall b :: (n, b) in FixedEdges ==> b == m
  {
    match n
    case Start => Reader
    case Reader => Analyzer
    case Retriever => Generator
    case Generator => Sender
    case Sender => End
    case Ignore => End
  }

  /** Distance to `End`; every edge decreases it. */
  function Rank(n: Node): nat {
    match n
    case Start => 6
    case Reader => 5
    case Analyzer => 4
    case Retriever => 3
    case Generator => 2
    case Sender => 1
    case Ignore => 1
    case End => 0
  }

  /** A complete run through the graph: from the entry point to `End`, along edges. */
  predicate IsRun(p: seq<Node>) {
    && |p| >= 1 && p[0] == Start && p[|p| - 1] == End
    && forall i :: 0 <= i < |p| - 1 ==> Edge(p[i], p[i + 1])
  }

  /** A walk from `n` to `End` along edges; a run is a walk from `Start`. */
  predicate WalkFrom(n: Node, p: seq<Node>) {
    && |p| >= 1 && p[0] == n && p[|p| - 1] == End
    && forall i :: 0 <= i < |p| - 1 ==> Edge(p[i], p[i + 1])
  }

  /** An edge into the head of a walk extends it. */
  lemma WalkCons(n: Node, p: seq<Node>)
    requires p != [] && Edge(n, p[0]) && WalkFrom(p[0], p)
    ensures WalkFrom(n, [n] + p)
  {
    var q := [n] + p;
    forall i | 0 <= i < |q| - 1 ensures Edge(q[i], q[i + 1]) {
      if i > 0 {
        assert q[i] == p[i - 1] && q[i + 1] == p[i];
      }
    }
  }

  const IgnorePath := [Start, Reader, Analyzer, Ignore, End]
  const SendPath := [Start, Reader, Analyzer, Retriever, Generator, Sender, End]

  /** `End` is terminal. */
  lemma NoEdgeFromEnd(b: Node)
    ensures !Edge(End, b)
  {
    assert (End, b) !in FixedEdges;
  }

  /** The edge table admits exactly two runs: through `ignore`, or through retriever, generator and sender. */
  lemma RunShapes(p: seq<Node>)
    requires IsRun(p)
    ensures p == IgnorePath || p == SendPath
  {
    forall j | 0 <= j < |p| - 1 ensures p[j] != End {
      assert Edge(p[j], p[j + 1]);
      NoEdgeFromEnd(p[j + 1]);
    }
    assert Edge(p[0], p[1]);
    assert p[1] == Reader;
    assert Edge(p[1], p[2]);
    assert p[2] == Analyzer;
    assert Edge(p[2], p[3]);
    assert p[3] == Ignore || p[3] == Retriever;
    if p[3] == Ignore {
      assert Edge(p[3], p[4]);
      assert p[4] == End;
      assert p == IgnorePath;
    } else {
      assert Edge(p[3], p[4]);
      assert p[4] == Generator;
      assert Edge(p[4], p[5]);
      assert p[5] == Sender;
      assert Edge(p[5], p[6]);
      assert p[6] == End;
      assert p == SendPath;
    }
  }

  lemma BothPathsAreRuns()
    ensures IsRun(IgnorePath) && IsRun(SendPath)
  {
    assert Ignore in ConditionalEdges.Values by { assert ConditionalEdges["skip"] == Ignore; }
    assert Retriever in ConditionalEdges.Values by { assert ConditionalEdges["legit"] == Retriever; }
  }

  // ---------------------------------------------------------------------------------
  // The run

  const PendingDecision := "PENDING"

  /** Lines 100-116: the record every run starts from. */
  function InitialState(): (s: State)
    ensures s.steps == [] && s.finalDecision == PendingDecision
    ensures IsFalse(s.isSpam) && IsTrue(s.needsReply) && s.priority == Int(3) && s.confidence == ZeroFloat
    ensures forall t :: !ShouldSkip(t, s.messageId, s.threadId, s.rawEmail) ==> RoutingLogic(t, s) == "legit"
  {
    State(
      "", "", "", "", "",
      Str("Pending"), Str("Neutral"), Bool(false), Bool(true), Int(3),
      Str(""), Content(""), ZeroFloat, PendingDecision, [])
  }

  /** What the mail reader produced (transport I/O, not modelled): a message, or the error it hit. */
  datatype ReaderResult = Fetched(message: Message) | ReadError(error: string)

  /** The reader's update: the message fields and one step. */
  function ReaderUpdate(r: ReaderResult): Update {
    match r
    case Fetched(m) => NoChange.(message := Some(m), steps := Some(["Successfully read email: " + m.messageId]))
    case ReadError(e) => NoChange.(steps := Some(["Error in Gmail Reader: " + e]))
  }

  /** Every external service a run consults. */
  datatype Services = Services(
    reader: ReaderResult,
    classify: Request -> Reply,
    parse: string -> Option<JsonDoc>,
    search: (string, nat) -> Result<string>,
    format: string -> Reply,
    primarySetup: Option<string>,
    primary: Prompt -> Reply,
    fallbackSetup: Option<string>,
    fallback: Prompt -> Reply,
    send: OutgoingReply -> SendResult)

  /** Runs one node: the store afterwards and the update it returns. */
  function Exec(n: Node, t: Tables, s: State, env: Services): (Tables, Update)
    requires n == Sender ==> DraftIsText(s)
  {
    match n
    case Reader => (t, ReaderUpdate(env.reader))
    case Analyzer => (t, AnalyzerNode.Analyzer(t, s, env.classify, env.parse))
    case Retriever => (t, RetrieverNode.Retriever(s, env.search, env.format))
    case Generator =>
      (t, ResponseGeneratorNode.Generator(s, HistoryText(t, s.threadId), env.primarySetup, env.primary, env.fallbackSetup, env.fallback))
    case Sender =>
      var o := SenderOutcome(s, env.send);
      (Apply(t, o.record), o.update)
    case Ignore => (t, LogAndIgnore(s))
    case _ => (t, NoChange)
  }

  /** Only the generator leads to the dispatcher, and it always leaves a text draft. */
  lemma GeneratedDraftIsText(t: Tables, s: State, env: Services)
    ensures DraftIsText(Merge(s, Exec(Generator, t, s, env).1))
  {
  }

  /** The final store, the final record and the nodes visited. */
  datatype Run = Run(store: Tables, state: State, trace: seq<Node>)

  /** The interpreter: run `n`, merge its update, follow the edge table; the router picks the analyzer's edge. */
  function RunFrom(n: Node, t: Tables, s: State, env: Services): (r: Run)
    requires n == Sender ==> DraftIsText(s)
    ensures WalkFrom(n, r.trace)
    decreases Rank(n)
  {
    if n == End then Run(t, s, [End])
    else
      var step := Exec(n, t, s, env);
      var s' := Merge(s, step.1);
      var next := if n == Analyzer then ConditionalEdges[RoutingLogic(step.0, s')] else FixedNext(n);
      assert next == Sender ==> DraftIsText(s') by {
        if next == Sender {
          GeneratedDraftIsText(t, s, env);
        }
      }
      var rest := RunFrom(next, step.0, s', env);
      assert Edge(n, next);
      WalkCons(n, rest.trace);
      Run(rest.store, rest.state, [n] + rest.trace)
  }

  /** `app.invoke(initial_state)` */
  function Invoke(t: Tables, env: Services): (r: Run)
    ensures IsRun(r.trace)
  {
    RunFrom(Start, t, InitialState(), env)
  }

  // ---------------------------------------------------------------------------------
  // One run, stage by stage

  function AfterRead(env: Services): State {
    Merge(InitialState(), ReaderUpdate(env.reader))
  }

  function AfterAnalysis(t: Tables, env: Services): State {
    var s := AfterRead(env);
    Merge(s, AnalyzerNode.Analyzer(t, s, env.classify, env.parse))
  }

  /** The router's label for this run. */
  function RouteOf(t: Tables, env: Services): string {
    RoutingLogic(t, AfterAnalysis(t, env))
  }

  function AfterRetrieval(t: Tables, env: Services): State {
    var s := AfterAnalysis(t, env);
    Merge(s, RetrieverNode.Retriever(s, env.search, env.format))
  }

  function AfterGeneration(t: Tables, env: Services): (s': State)
    ensures s'.draftReply.Str?
  {
    var s := AfterRetrieval(t, env);
    Merge(s, ResponseGeneratorNode.Generator(s, HistoryText(t, s.threadId), env.primarySetup, env.primary, env.fallbackSetup, env.fallback))
  }

  /** What the dispatcher does in this run, should the run reach it. */
  function Dispatch(t: Tables, env: Services): Outcome {
    var s := AfterGeneration(t, env);
    SenderOutcome(s, env.send)
  }

  lemma MergeNothing(s: State)
    ensures Merge(s, NoChange) == s
  {
    assert s.steps + [] == s.steps;
  }

  /** Prepends a visited node to a run. */
  function Visit(n: Node, r: Run): Run {
    Run(r.store, r.state, [n] + r.trace)
  }

  /** One step of the interpreter: the node's visit, then the run from its successor. */
  lemma Unfold(n: Node, t: Tables, s: State, env: Services)
    requires n != End && (n == Sender ==> DraftIsText(s))
    ensures var step := Exec(n, t, s, env);
            var s' := Merge(s, step.1);
            var next := if n == Analyzer then ConditionalEdges[RoutingLogic(step.0, s')] else FixedNext(n);
            (next == Sender ==> DraftIsText(s'))
            && RunFrom(n, t, s, env) == Visit(n, RunFrom(next, step.0, s', env))
  {
  }

  lemma FromStart(t: Tables, env: Services)
    ensures Invoke(t, env) == Visit(Start, Visit(Reader, RunFrom(Analyzer, t, AfterRead(env), env)))
  {
    MergeNothing(InitialState());
    Unfold(Start, t, InitialState(), env);
    Unfold(Reader, t, InitialState(), env);
  }

  lemma FromAnalyzer(t: Tables, env: Services)
    ensures RunFrom(Analyzer, t, AfterRead(env), env)
         == Visit(Analyzer, RunFrom(ConditionalEdges[RouteOf(t, env)], t, AfterAnalysis(t, env), env))
  {
    Unfold(Analyzer, t, AfterRead(env), env);
  }

  lemma FromSender(t: Tables, s: State, env: Services)
    requires DraftIsText(s)
    ensures var o := SenderOutcome(s, env.send);
            RunFrom(Sender, t, s, env) == Run(Apply(t, o.record), Merge(s, o.update), [Sender, End])
  {
    Unfold(Sender, t, s, env);
  }

  lemma FromGenerator(t: Tables, s: State, env: Services)
    ensures var s' := Merge(s, ResponseGeneratorNode.Generator(s, HistoryText(t, s.threadId), env.primarySetup, env.primary, env.fallbackSetup, env.fallback));
            DraftIsText(s') && RunFrom(Generator, t, s, env) == Visit(Generator, RunFrom(Sender, t, s', env))
  {
    Unfold(Generator, t, s, env);
  }

  lemma FromRetrieverNode(t: Tables, s: State, env: Services)
    ensures RunFrom(Retriever, t, s, env) == Visit(Retriever, RunFrom(Generator, t, Merge(s, RetrieverNode.Retriever(s, env.search, env.format)), env))
  {
    Unfold(Retriever, t, s, env);
  }

  lemma ReplyTails()
    ensures [Generator] + [Sender, End] == [Generator, Sender, End]
    ensures [Retriever] + [Generator, Sender, End] == [Retriever, Generator, Sender, End]
  {
  }

  /** The tail of the reply path: generator, dispatcher, end. */
  lemma GeneratorToEnd(t: Tables, env: Services)
    ensures var o := Dispatch(t, env);
            RunFrom(Generator, t, AfterRetrieval(t, env), env) ==
              Run(Apply(t, o.record), Merge(AfterGeneration(t, env), o.update), [Generator, Sender, End])
  {
    var sR := AfterRetrieval(t, env);
    var sG := AfterGeneration(t, env);
    assert sG == Merge(sR, ResponseGeneratorNode.Generator(sR, HistoryText(t, sR.threadId), env.primarySetup, env.primary, env.fallbackSetup, env.fallback));
    FromGenerator(t, sR, env);
    var rS := RunFrom(Sender, t, sG, env);
    assert RunFrom(Generator, t, sR, env) == Visit(Generator, rS);
    FromSender(t, sG, env);
    ReplyTails();
  }

  lemma FromRetriever(t: Tables, env: Services)
    ensures var o := Dispatch(t, env);
            RunFrom(Retriever, t, AfterAnalysis(t, env), env) ==
              Run(Apply(t, o.record), Merge(AfterGeneration(t, env), o.update), [Retriever, Generator, Sender, End])
  {
    GeneratorToEnd(t, env);
    FromRetrieverNode(t, AfterAnalysis(t, env), env);
    ReplyTails();
  }

  /** The analyzer's only exits: "legit" to the retriever, the two other labels to the ignore node. */
  lemma RouteTarget(route: string)
    requires route in ConditionalEdges
    ensures ConditionalEdges[route] == if route == "legit" then Retriever else Ignore
  {
  }

  lemma FromIgnore(t: Tables, s: State, env: Services)
    ensures RunFrom(Ignore, t, s, env) == Run(t, Merge(s, LogAndIgnore(s)), [Ignore, End])
  {
  }

  lemma PathsShareTheirHead()
    ensures [Start, Reader, Analyzer] + [Retriever, Generator, Sender, End] == SendPath
    ensures [Start, Reader, Analyzer] + [Ignore, End] == IgnorePath
  {
  }

  lemma ThreeVisits(r: Run)
    ensures Visit(Start, Visit(Reader, Visit(Analyzer, r))) == Run(r.store, r.state, [Start, Reader, Analyzer] + r.trace)
  {
    assert [Start] + ([Reader] + ([Analyzer] + r.trace)) == [Start, Reader, Analyzer] + r.trace;
  }

  /** The first three nodes of every run. */
  lemma InvokeHead(t: Tables, env: Services)
    ensures var rA := RunFrom(ConditionalEdges[RouteOf(t, env)], t, AfterAnalysis(t, env), env);
            Invoke(t, env) == Run(rA.store, rA.state, [Start, Reader, Analyzer] + rA.trace)
  {
    var rA := RunFrom(ConditionalEdges[RouteOf(t, env)], t, AfterAnalysis(t, env), env);
    FromStart(t, env);
    FromAnalyzer(t, env);
    ThreeVisits(rA);
  }

  /** A "legit" label runs retriever, generator and dispatcher, in that order. */
  lemma InvokeReplies(t: Tables, env: Services)
    requires RouteOf(t, env) == "legit"
    ensures var o := Dispatch(t, env);
            Invoke(t, env) == Run(Apply(t, o.record), Merge(AfterGeneration(t, env), o.update), SendPath)
  {
    InvokeHead(t, env);
    RouteTarget(RouteOf(t, env));
    FromRetriever(t, env);
    PathsShareTheirHead();
  }

  /** Any other label runs the ignore node and nothing else. */
  lemma InvokeIgnores(t: Tables, env: Services)
    requires RouteOf(t, env) != "legit"
    ensures var sA := AfterAnalysis(t, env);
            Invoke(t, env) == Run(t, Merge(sA, LogAndIgnore(sA)), IgnorePath)
  {
    InvokeHead(t, env);
    RouteTarget(RouteOf(t, env));
    FromIgnore(t, AfterAnalysis(t, env), env);
    PathsShareTheirHead();
  }

  // ---------------------------------------------------------------------------------
  // What every run guarantees

  /** No node after the reader replaces the message fields. */
  lemma MessageCarried(t: Tables, env: Services)
    ensures var s1 := AfterRead(env);
            var s := AfterGeneration(t, env);
            s.messageId == s1.messageId && s.threadId == s1.threadId && s.senderEmail == s1.senderEmail
            && s.subject == s1.subject && s.rawEmail == s1.rawEmail
    ensures var s1 := AfterRead(env);
            var s := AfterAnalysis(t, env);
            s.messageId == s1.messageId && s.threadId == s1.threadId && s.senderEmail == s1.senderEmail
            && s.subject == s1.subject && s.rawEmail == s1.rawEmail
    ensures env.reader.Fetched? ==>
              var m := env.reader.message;
              var s1 := AfterRead(env);
              s1.messageId == m.messageId && s1.threadId == m.threadId && s1.senderEmail == m.senderEmail
              && s1.subject == m.subject && s1.rawEmail == m.rawEmail
  {
    var s1 := AfterRead(env);
    var sA := AfterAnalysis(t, env);
    var sR := AfterRetrieval(t, env);
    MergeMessage(InitialState(), ReaderUpdate(env.reader));
    MergeMessage(s1, AnalyzerNode.Analyzer(t, s1, env.classify, env.parse));
    MergeMessage(sA, RetrieverNode.Retriever(sA, env.search, env.format));
    MergeMessage(sR, ResponseGeneratorNode.Generator(sR, HistoryText(t, sR.threadId), env.primarySetup, env.primary, env.fallbackSetup, env.fallback));
  }

  /** Every run walks an edge path of the graph, the reply path exactly when the router says "legit". */
  lemma RunsFollowTheGraph(t: Tables, env: Services)
    ensures IsRun(Invoke(t, env).trace)
    ensures Invoke(t, env).trace == SendPath <==> RouteOf(t, env) == "legit"
    ensures Invoke(t, env).trace == IgnorePath <==> RouteOf(t, env) != "legit"
  {
    BothPathsAreRuns();
    if RouteOf(t, env) == "legit" {
      InvokeReplies(t, env);
      assert |SendPath| != |IgnorePath|;
    } else {
      InvokeIgnores(t, env);
      assert |SendPath| != |IgnorePath|;
    }
  }

  /** The reply path's final record and store, in terms of the state the dispatcher saw. */
  lemma ReplyRunStore(t: Tables, env: Services)
    requires RouteOf(t, env) == "legit"
    ensures var r := Invoke(t, env);
            var sG := AfterGeneration(t, env);
            var o := Dispatch(t, env);
            r.trace == SendPath && r.store == Apply(t, o.record)
            && r.state.messageId == sG.messageId && r.state.threadId == sG.threadId
            && r.state.draftReply == sG.draftReply
            && r.state.finalDecision == (if o.record.Some? then o.update.finalDecision.value else sG.finalDecision)
            && (o.record.Some? ==> o.record.value == ReplyEntry(sG, sG.draftReply.s))
  {
    InvokeReplies(t, env);
    var sG := AfterGeneration(t, env);
    var o := Dispatch(t, env);
    MergeMessage(sG, o.update);
  }

  /**
   * The only write a run makes is the assistant's row for the message it answered, logged
   * under "reply_" + the inbound id (which marks that id, and only that one, processed).
   * The inbound id itself is never marked.
   */
  lemma StoreEffect(t: Tables, env: Services)
    ensures var r := Invoke(t, env);
            r.store == t
            || (r.state.draftReply.Str? && r.trace == SendPath
                && r.store == LogEntry(t, Entry(r.state.threadId, ReplyPrefix + r.state.messageId, AssistantSender,
                                                AssistantRole, r.state.draftReply.s)))
    ensures var r := Invoke(t, env);
            r.state.messageId in r.store.processed <==> r.state.messageId in t.processed
    ensures var r := Invoke(t, env);
            env.reader.Fetched? ==> r.state.messageId == env.reader.message.messageId
                                    && r.state.threadId == env.reader.message.threadId
  {
    MessageCarried(t, env);
    if RouteOf(t, env) == "legit" {
      ReplyStoreEffect(t, env);
    } else {
      var r := Invoke(t, env);
      InvokeIgnores(t, env);
      var sA := AfterAnalysis(t, env);
      MergeMessage(sA, LogAndIgnore(sA));
    }
  }

  /** The reply path's half of `StoreEffect`: at most the reply row, keyed "reply_" + the id. */
  lemma ReplyStoreEffect(t: Tables, env: Services)
    requires RouteOf(t, env) == "legit"
    ensures var r := Invoke(t, env);
            var sG := AfterGeneration(t, env);
            r.state.messageId == sG.messageId && r.state.threadId == sG.threadId
            && (r.store == t
                || (r.state.draftReply.Str? && r.trace == SendPath
                    && r.store == LogEntry(t, Entry(r.state.threadId, ReplyPrefix + r.state.messageId, AssistantSender,
                                                    AssistantRole, r.state.draftReply.s))))
            && (r.state.messageId in r.store.processed <==> r.state.messageId in t.processed)
  {
    ReplyRunStore(t, env);
    ReplyStore(t, Invoke(t, env), AfterGeneration(t, env), Dispatch(t, env));
  }

  /** The store arithmetic behind `ReplyStoreEffect`, on plain values. */
  lemma ReplyStore(t: Tables, r: Run, sG: State, o: Outcome)
    requires r.trace == SendPath && r.store == Apply(t, o.record)
    requires r.state.messageId == sG.messageId && r.state.threadId == sG.threadId && r.state.draftReply == sG.draftReply
    requires o.record.Some? ==> sG.draftReply.Str? && o.record.value == ReplyEntry(sG, sG.draftReply.s)
    ensures r.store == t
            || (r.state.draftReply.Str? && r.trace == SendPath
                && r.store == LogEntry(t, Entry(r.state.threadId, ReplyPrefix + r.state.messageId, AssistantSender,
                                                AssistantRole, r.state.draftReply.s)))
    ensures r.state.messageId in r.store.processed <==> r.state.messageId in t.processed
  {
    if o.record.Some? {
      assert |ReplyPrefix + r.state.messageId| > |r.state.messageId|;
    }
  }

  /**
   * A run ends "IGNORED", still "PENDING", or "SENT: " + the provider's id, and it ends
   * "SENT: ..." exactly when it wrote to the store. The analyzer's
   * SKIPPED_ALREADY_PROCESSED never survives: such a message is routed to the ignore node,
   * which overwrites it.
   */
  lemma FinalDecisions(t: Tables, env: Services)
    ensures var d := Invoke(t, env).state.finalDecision;
            d == IgnoredDecision || d == PendingDecision || "SENT: " <= d
    ensures Invoke(t, env).state.finalDecision != SkippedDecision
    ensures "SENT: " <= Invoke(t, env).state.finalDecision <==> Invoke(t, env).store != t
  {
    DecisionWordsDiffer();
    if RouteOf(t, env) == "legit" {
      ReplyDecision(t, env);
    } else {
      InvokeIgnores(t, env);
    }
  }

  /** The four decision words are told apart by their first two letters. */
  lemma DecisionWordsDiffer()
    ensures !("SENT: " <= PendingDecision) && !("SENT: " <= IgnoredDecision) && !("SENT: " <= SkippedDecision)
    ensures PendingDecision != SkippedDecision && IgnoredDecision != SkippedDecision
  {
    assert PendingDecision[0] != 'S' && IgnoredDecision[0] != 'S' && SkippedDecision[1] != 'E';
  }

  lemma ReplyDecision(t: Tables, env: Services)
    requires RouteOf(t, env) == "legit"
    ensures var r := Invoke(t, env);
            (r.state.finalDecision == PendingDecision && r.store == t)
            || ("SENT: " <= r.state.finalDecision && r.store != t)
  {
    ReplyRunStore(t, env);
    PendingUntilDispatch(t, env);
    var o := Dispatch(t, env);
    if o.record.Some? {
      assert |Apply(t, o.record).history| == |t.history| + 1;
    }
  }

  /** On the reply path nothing before the dispatcher decides: the record is still "PENDING". */
  lemma PendingUntilDispatch(t: Tables, env: Services)
    requires RouteOf(t, env) == "legit"
    ensures AfterGeneration(t, env).finalDecision == PendingDecision
  {
    var s1 := AfterRead(env);
    var sA := AfterAnalysis(t, env);
    MessageCarried(t, env);
    if AlreadyHandled(t, s1.messageId) {
      HandledImpliesSkip(t, sA.messageId, sA.threadId, sA.rawEmail);
      assert false;
    }
    assert sA.finalDecision == PendingDecision;
    assert AfterRetrieval(t, env).finalDecision == PendingDecision;
  }

  /** A message the guard flags is ignored: nothing is generated, sent or written. */
  lemma GuardedMessageIgnored(t: Tables, env: Services, m: Message)
    requires env.reader == Fetched(m)
    requires ShouldSkip(t, m.messageId, m.threadId, m.rawEmail)
    ensures Invoke(t, env).trace == IgnorePath
    ensures Invoke(t, env).store == t
    ensures Invoke(t, env).state.finalDecision == IgnoredDecision
  {
    MessageCarried(t, env);
    InvokeIgnores(t, env);
  }

  /** A sender whose address names "noreply" or "no-reply" is never answered, whatever the model says. */
  lemma AutomatedSenderIgnored(t: Tables, env: Services, m: Message)
    requires env.reader == Fetched(m)
    requires IsAutomatedSender(m.senderEmail)
    ensures Invoke(t, env).trace == IgnorePath
    ensures Invoke(t, env).store == t
    ensures Invoke(t, env).state.finalDecision == IgnoredDecision
  {
    MessageCarried(t, env);
    var sA := AfterAnalysis(t, env);
    assert sA.needsReply == Bool(false);
    InvokeIgnores(t, env);
  }

  /** After a run that sent a reply, the next message in that thread is ignored, whatever it says. */
  lemma ReplyEndsTheThread(t: Tables, env: Services, next: Services, m: Message)
    requires "SENT: " <= Invoke(t, env).state.finalDecision
    requires next.reader == Fetched(m)
    requires m.threadId == Invoke(t, env).state.threadId
    ensures Invoke(Invoke(t, env).store, next).trace == IgnorePath
    ensures Invoke(Invoke(t, env).store, next).store == Invoke(t, env).store
  {
    var r := Invoke(t, env);
    FinalDecisions(t, env);
    StoreEffect(t, env);
    var e := Entry(r.state.threadId, ReplyPrefix + r.state.messageId, AssistantSender, AssistantRole, r.state.draftReply.s);
    AssistantTurnBlocks(t, e, m.messageId, m.rawEmail);
    GuardedMessageIgnored(r.store, next, m);
  }

  /** With the search failing and the primary model answering, the draft is that answer, written without documents. */
  lemma DraftWithoutContext(t: Tables, env: Services, m: Message, answer: string)
    requires env.reader == Fetched(m)
    requires env.search(Query(m.subject, m.rawEmail), TopK).Failure?
    requires env.primarySetup.None? && forall p :: env.primary(p) == Answer(answer)
    ensures AfterRetrieval(t, env).retrievedContext == EmptyList
    ensures BuildPrompt(AfterRetrieval(t, env), HistoryText(t, m.threadId)).system.mode == InternalReasoning
    ensures AfterGeneration(t, env).draftReply == Str(answer)
  {
    MessageCarried(t, env);
    var sR := AfterRetrieval(t, env);
    MergeMessage(AfterAnalysis(t, env), RetrieverNode.Retriever(AfterAnalysis(t, env), env.search, env.format));
    assert sR.retrievedContext == EmptyList;
  }

  /**
   * A legitimate question with nothing in the knowledge base: the search fails, the
   * generator drafts in INTERNAL_REASONING mode, the dispatcher sends the model's text and
   * the store gains the assistant's row for it.
   */
  lemma AnsweredWithoutContext(t: Tables, env: Services, m: Message, answer: string, id: string)
    requires env.reader == Fetched(m)
    requires !ShouldSkip(t, m.messageId, m.threadId, m.rawEmail)
    requires !IsTrue(AfterAnalysis(t, env).isSpam) && !IsFalse(AfterAnalysis(t, env).needsReply)
    requires env.search(Query(m.subject, m.rawEmail), TopK).Failure?
    requires env.primarySetup.None? && forall p :: env.primary(p) == Answer(answer)
    requires answer != "" && !Contains(answer, NoResponseMarker)
    requires forall o :: env.send(o) == Sent(id)
    ensures BuildPrompt(AfterRetrieval(t, env), HistoryText(t, m.threadId)).system.mode == InternalReasoning
    ensures Invoke(t, env).trace == SendPath
    ensures Invoke(t, env).state.finalDecision == "SENT: " + id
    ensures Invoke(t, env).store == LogEntry(t, Entry(m.threadId, ReplyPrefix + m.messageId, AssistantSender, AssistantRole, answer))
  {
    MessageCarried(t, env);
    DraftWithoutContext(t, env, m, answer);
    assert RouteOf(t, env) == "legit";
    var sG := AfterGeneration(t, env);
    var o := Dispatch(t, env);
    assert o.record == Some(ReplyEntry(sG, answer));
    ReplyRunStore(t, env);
  }
}
