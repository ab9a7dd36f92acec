/**
 * The strategy layer behind the web API: the five execution modes, the
 * factory that maps each mode to its engine, and each engine's
 * `process_async`, which returns the answer and its trace. Engines build a
 * fresh object per request; the lazily built retriever of the two RAG
 * engines is cached only within one engine object.
 *
 * The vector store is described by a `VectorIndex`; the chunks it indexes
 * are given (the text splitter is not modelled) and the search itself is
 * the parameter `search`. A language model whose number of calls does not
 * matter is a function from the prompt text to the answer text.
 */
module Engines {
  import opened Wrappers
  import opened Text
  import opened Chunks
  import opened Trace
  import opened Chat
  import opened Tools

  // ---------------------------------------------------------------------
  // Modes and the factory
  // ---------------------------------------------------------------------

  datatype ExecutionMode = LlmOnly | PromptStuffing | RagOnly | FunctionCalling | RagFunctionCalling

  /** The enumeration's value strings. */
  function ModeValue(m: ExecutionMode): string {
    match m
    case LlmOnly => "llm_only"
    case PromptStuffing => "prompt_stuffing"
    case RagOnly => "rag_only"
    case FunctionCalling => "function_calling"
    case RagFunctionCalling => "rag_function_calling"
  }

  /** `ExecutionMode(v)`: the member with value `v`, if any. */
  function ModeOfValue(v: string): (r: Option<ExecutionMode>)
    ensures r.Some? ==> ModeValue(r.value) == v
    ensures r.None? ==> forall m :: ModeValue(m) != v
  {
    if v == "llm_only" then Some(LlmOnly)
    else if v == "prompt_stuffing" then Some(PromptStuffing)
    else if v == "rag_only" then Some(RagOnly)
    else if v == "function_calling" then Some(FunctionCalling)
    else if v == "rag_function_calling" then Some(RagFunctionCalling)
    else None
  }

  /** Every member is found again from its value. */
  lemma ModeValueRoundTrip(m: ExecutionMode)
    ensures ModeOfValue(ModeValue(m)) == Some(m)
  {
  }

  /** The five engine classes. */
  datatype EngineClass =
    | LlmOnlyClass | PromptStuffingClass | RagOnlyClass | FunctionCallingClass | RagFunctionCallingClass

  /** The mode each engine class implements (its "実装" number). */
  function ImplementedMode(c: EngineClass): ExecutionMode {
    match c
    case LlmOnlyClass => LlmOnly
    case PromptStuffingClass => PromptStuffing
    case RagOnlyClass => RagOnly
    case FunctionCallingClass => FunctionCalling
    case RagFunctionCallingClass => RagFunctionCalling
  }

  /** The argument of `create_engine`: a member of the enumeration, or any other value with its `str`. */
  datatype ModeArg = Member(mode: ExecutionMode) | NotAMember(text: string)

  /** The factory's lookup table. */
  const EngineTable: map<ExecutionMode, EngineClass> := map[
    LlmOnly := LlmOnlyClass,
    PromptStuffing := PromptStuffingClass,
    RagOnly := RagOnlyClass,
    FunctionCalling := FunctionCallingClass,
    RagFunctionCalling := RagFunctionCallingClass
  ]

  lemma EngineTableTotal(m: ExecutionMode)
    ensures m in EngineTable && ImplementedMode(EngineTable[m]) == m
  {
    match m
    case LlmOnly =>
    case PromptStuffing =>
    case RagOnly =>
    case FunctionCalling =>
    case RagFunctionCalling =>
  }

  /**
   * `create_engine`: the engine class for a mode, or the `ValueError` for a
   * value the table does not hold.
   */
  function CreateEngine(arg: ModeArg): (r: Result<EngineClass>)
    ensures r.Ok? <==> arg.Member?
    ensures r.Ok? ==> ImplementedMode(r.value) == arg.mode
    ensures r.Err? ==> r.message == "Unknown execution mode: " + arg.text
  {
    match arg
    case Member(m) => EngineTableTotal(m); Ok(EngineTable[m])
    case NotAMember(text) => Err("Unknown execution mode: " + text)
  }

  /** Distinct modes get distinct engines, and every class is reachable. */
  lemma CreateEngineBijective(m1: ExecutionMode, m2: ExecutionMode, c: EngineClass)
    ensures CreateEngine(Member(m1)) == CreateEngine(Member(m2)) ==> m1 == m2
    ensures CreateEngine(Member(ImplementedMode(c))) == Ok(c)
  {
    var r1, r2 := CreateEngine(Member(m1)), CreateEngine(Member(m2));
    assert ImplementedMode(r1.value) == m1 && ImplementedMode(r2.value) == m2;
  }

  /** What every engine returns: the answer and the trace. */
  datatype EngineOutput = EngineOutput(response: string, steps: seq<TraceStep>)

  // ---------------------------------------------------------------------
  // Mode 1: the model alone
  // ---------------------------------------------------------------------

  method LlmOnlyProcess(query: string, llm: string -> string) returns (out: EngineOutput)
    ensures StepNames(out.steps) == ["initialize", "llm_invoke", "complete"]
    ensures forall k :: 0 <= k < |out.steps| ==> out.steps[k].data == map[]
    ensures out.response == llm(query)
  {
    var steps := [Step("initialize", "LLMを初期化")];
    steps := steps + [Step("llm_invoke", "LLMに直接クエリを送信")];
    var response := llm(query);
    steps := steps + [Step("complete", "処理完了")];
    out := EngineOutput(response, steps);
  }

  // ---------------------------------------------------------------------
  // Mode 2: the whole manual in the prompt
  // ---------------------------------------------------------------------

  const StuffingHead: string :=
    "以下の製品取扱説明書を参考にして、質問に答えてください。\n\n=== 製品取扱説明書 ===\n"
  const StuffingMiddle: string := "\n\n=== 質問 ===\n"
  const StuffingTail: string :=
    "\n\n=== 回答 ===\n製品取扱説明書の内容に基づいて、正確な情報を提供してください。"

  function StuffingPrompt(knowledge: string, query: string): string {
    StuffingHead + knowledge + StuffingMiddle + query + StuffingTail
  }

  /**
   * The prompt holds the whole manual and the query verbatim, the manual
   * first, and adds a fixed amount of text around them.
   */
  lemma StuffingPromptEmbeds(knowledge: string, query: string)
    ensures var p := StuffingPrompt(knowledge, query);
            && p[|StuffingHead|..|StuffingHead| + |knowledge|] == knowledge
            && Contains(p, knowledge) && Contains(p, query)
            && |p| == |knowledge| + |query| + |StuffingHead| + |StuffingMiddle| + |StuffingTail|
  {
    var p := StuffingPrompt(knowledge, query);
    ContainsInfix(StuffingHead, knowledge, StuffingMiddle + query + StuffingTail);
    assert p == StuffingHead + knowledge + (StuffingMiddle + query + StuffingTail);
    ContainsInfix(StuffingHead + knowledge + StuffingMiddle, query, StuffingTail);
  }

  /** `knowledge` is the text of the knowledge file. */
  method PromptStuffingProcess(query: string, knowledge: string, llm: string -> string) returns (out: EngineOutput)
    ensures StepNames(out.steps) == ["initialize", "load_knowledge", "create_prompt", "complete"]
    ensures out.steps[1].description == "ナレッジファイルを読み込み (" + NatToString(|knowledge|) + "文字)"
    ensures out.steps[1].data == map["content_length" := DInt(|knowledge|)]
    ensures out.steps[2].data == map["prompt_length" := DInt(|StuffingPrompt(knowledge, query)|)]
    ensures out.response == llm(StuffingPrompt(knowledge, query))
  {
    var steps := [Step("initialize", "エンジンを初期化")];
    steps := steps + [DataStep("load_knowledge", "ナレッジファイルを読み込み (" + NatToString(|knowledge|) + "文字)",
                               map["content_length" := DInt(|knowledge|)])];
    var prompt := StuffingHead + knowledge + StuffingMiddle + query + StuffingTail;
    steps := steps + [DataStep("create_prompt", "ナレッジ情報を含むプロンプトを作成", map["prompt_length" := DInt(|prompt|)])];
    var response := llm(prompt);
    steps := steps + [Step("complete", "処理完了")];
    out := EngineOutput(response, steps);
  }

  // ---------------------------------------------------------------------
  // Mode 3: retrieval-augmented generation
  // ---------------------------------------------------------------------

  /** Every retriever of the engines returns three hits. */
  const EngineRetrieverK: nat := 3

  const EmbeddingModel: string := "all-MiniLM-L6-v2"

  /** `format_docs`: the hit texts separated by blank lines. */
  function FormatDocs(docs: seq<Chunk>): string {
    Join("\n\n", docs)
  }

  /** The text of the RAG chain's prompt. */
  function RagEnginePrompt(context: string, question: string): string {
    "以下のコンテキスト情報を使用して質問に答えてください。\n"
    + "コンテキストに答えが含まれていない場合は、「提供された情報では回答できません」と答えてください。\n\n"
    + "コンテキスト:\n" + context + "\n\n"
    + "質問: " + question + "\n\n"
    + "回答:"
  }

  /** Every hit is in the chain's prompt. */
  lemma RagEnginePromptHoldsHits(docs: seq<Chunk>, question: string, k: nat)
    requires k < |docs|
    ensures Contains(RagEnginePrompt(FormatDocs(docs), question), docs[k])
  {
    var a := "以下のコンテキスト情報を使用して質問に答えてください。\n"
      + "コンテキストに答えが含まれていない場合は、「提供された情報では回答できません」と答えてください。\n\n"
      + "コンテキスト:\n";
    var b := "\n\n" + "質問: " + question + "\n\n" + "回答:";
    var p := RagEnginePrompt(FormatDocs(docs), question);
    assert p == a + FormatDocs(docs) + b;
    JoinContains("\n\n", docs, k);
    var i: nat :| i <= |FormatDocs(docs)| && SubstringAt(docs[k], FormatDocs(docs), i);
    assert p[|a| + i..|a| + i + |docs[k]|] == FormatDocs(docs)[i..i + |docs[k]|];
    assert SubstringAt(docs[k], p, |a| + i);
  }

  /** A RAG chain: its prompt and model are fixed; what varies is the retriever in front of it. */
  datatype RagChain = RagChain(retriever: VectorIndex)

  /** The trace names of `_setup_rag` when it builds the retriever. */
  const RagSetupNames: seq<string> := ["load_documents", "split_documents", "create_vectorstore", "setup_rag_chain"]

  class RagOnlyEngine {
    var retriever: Option<VectorIndex>
    var ragChain: Option<RagChain>

    /** Both fields are set together, and the chain reads through the engine's own retriever. */
    predicate Valid()
      reads this
    {
      retriever.Some? == ragChain.Some? && (ragChain.Some? ==> ragChain.value == RagChain(retriever.value))
    }

    constructor ()
      ensures Valid() && retriever == None && ragChain == None
    {
      retriever := None;
      ragChain := None;
    }

    /**
     * `_setup_rag`, with `splits` the chunks of the knowledge file: once the
     * retriever exists nothing is rebuilt and the trace is empty.
     */
    method SetupRag(splits: seq<Chunk>) returns (steps: seq<TraceStep>)
      requires Valid()
      modifies this
      ensures Valid()
      ensures old(retriever).Some? ==> steps == [] && retriever == old(retriever)
      ensures old(retriever).None? ==>
                && retriever == Some(VectorIndex(splits, EngineRetrieverK))
                && StepNames(steps) == RagSetupNames
                && steps[0].data == map["document_count" := DInt(1)]
                && steps[1].description == "ドキュメントを" + NatToString(|splits|) + "個のチャンクに分割"
                && steps[1].data == map["chunk_count" := DInt(|splits|)]
                && steps[2].data == map["embedding_model" := DStr(EmbeddingModel)]
    {
      steps := [];
      if retriever.Some? {
        return;
      }
      steps := steps + [DataStep("load_documents", "ドキュメントを読み込み", map["document_count" := DInt(1)])];
      steps := steps + [DataStep("split_documents", "ドキュメントを" + NatToString(|splits|) + "個のチャンクに分割",
                                 map["chunk_count" := DInt(|splits|)])];
      retriever := Some(VectorIndex(splits, EngineRetrieverK));
      steps := steps + [DataStep("create_vectorstore", "ベクトルストアを構築", map["embedding_model" := DStr(EmbeddingModel)])];
      ragChain := Some(RagChain(retriever.value));
      steps := steps + [Step("setup_rag_chain", "RAGチェーンをセットアップ")];
    }

    /**
     * `process_async`: the setup trace (empty after the first call), the
     * retrieval record and the chain's answer over the same hits.
     */
    method Process(query: string, splits: seq<Chunk>, search: Search, llm: string -> string) returns (out: EngineOutput)
      requires Valid()
      modifies this
      ensures Valid()
      ensures retriever == (if old(retriever).Some? then old(retriever) else Some(VectorIndex(splits, EngineRetrieverK)))
      ensures var docs := search(retriever.value.chunks, query, retriever.value.k);
              && StepNames(out.steps) == (if old(retriever).Some? then [] else RagSetupNames) + ["retrieve_documents", "complete"]
              && out.steps[|out.steps| - 2].description == NatToString(|docs|) + "個の関連文書を検索"
              && out.steps[|out.steps| - 2].data == map["retrieved_chunks" := DStrs(docs), "chunk_count" := DInt(|docs|)]
              && out.response == llm(RagEnginePrompt(FormatDocs(docs), query))
    {
      var steps := SetupRag(splits);
      var docs := search(retriever.value.chunks, query, retriever.value.k);
      steps := steps + [DataStep("retrieve_documents", NatToString(|docs|) + "個の関連文書を検索",
                                 map["retrieved_chunks" := DStrs(docs), "chunk_count" := DInt(|docs|)])];
      var chainDocs := search(ragChain.value.retriever.chunks, query, ragChain.value.retriever.k);
      var response := llm(RagEnginePrompt(FormatDocs(chainDocs), query));
      steps := steps + [Step("complete", "RAG処理完了")];
      out := EngineOutput(response, steps);
    }
  }

  /**
   * One engine object serving two queries builds its retriever once: only
   * the first trace holds the setup records, and both answers come from
   * the same index.
   */
  method RagOnlyTwice(q1: string, q2: string, splits: seq<Chunk>, search: Search, llm: string -> string)
    returns (first: EngineOutput, second: EngineOutput)
    ensures StepNames(first.steps) == RagSetupNames + ["retrieve_documents", "complete"]
    ensures StepNames(second.steps) == ["retrieve_documents", "complete"]
    ensures second.response == llm(RagEnginePrompt(FormatDocs(search(splits, q2, EngineRetrieverK)), q2))
  {
    var engine := new RagOnlyEngine();
    first := engine.Process(q1, splits, search, llm);
    second := engine.Process(q2, splits, search, llm);
  }

  // ---------------------------------------------------------------------
  // Mode 4: one tool call
  // ---------------------------------------------------------------------

  /**
   * `process_async` of the function-calling engine. `llmWithTools` is the
   * model with `search_manual` bound, `llm` the plain model, `knowledge`
   * the text of the knowledge file. Only the first tool call is used, and
   * `search_manual` runs whatever the name of the tool called.
   */
  method FunctionCallingProcess(query: string, knowledge: string, llmWithTools: ChatModel, llm: ChatModel)
    returns (out: EngineOutput)
    requires llmWithTools != llm
    modifies llmWithTools, llm
    ensures llmWithTools.sent == old(llmWithTools.sent) + [query]
    ensures var first := llmWithTools.respond(query);
            && |out.steps| >= 2
            && out.steps[1].data == map["has_tool_calls" := DBool(first.toolCalls != [])]
            && (first.toolCalls == [] ==>
                  && StepNames(out.steps) == ["initialize", "llm_tool_decision", "complete"]
                  && out.response == first.content
                  && llm.sent == old(llm.sent))
            && (first.toolCalls != [] ==>
                  var call := first.toolCalls[0];
                  var result := SearchManualResult(knowledge, call.query);
                  && StepNames(out.steps) == ["initialize", "llm_tool_decision", "tool_execution", "tool_result", "complete"]
                  && out.steps[2].description == "ツール '" + call.name + "' を実行"
                  && out.steps[2].data == map["tool_name" := DStr(call.name), "tool_args" := DMap(map["query" := DStr(call.query)])]
                  && out.steps[3].data == map["tool_result" := DStr(Truncated(result, 200))]
                  && llm.sent == old(llm.sent) + [ToolAnswerPrompt(query, result)]
                  && out.response == llm.respond(ToolAnswerPrompt(query, result)).content)
  {
    var steps := [Step("initialize", "Function Callingエンジンを初期化")];
    var response := llmWithTools.Invoke(query);
    steps := steps + [DataStep("llm_tool_decision", "LLMがツール使用を判断", map["has_tool_calls" := DBool(response.toolCalls != [])])];
    var finalAnswer;
    if response.toolCalls != [] {
      var toolCall := response.toolCalls[0];
      steps := steps + [DataStep("tool_execution", "ツール '" + toolCall.name + "' を実行",
                                 map["tool_name" := DStr(toolCall.name), "tool_args" := DMap(map["query" := DStr(toolCall.query)])])];
      var toolResult := SearchManual(knowledge, toolCall.query);
      steps := steps + [DataStep("tool_result", "ツール実行結果を取得", map["tool_result" := DStr(Truncated(toolResult, 200))])];
      var finalResponse := llm.Invoke(ToolAnswerPrompt(query, toolResult));
      finalAnswer := finalResponse.content;
    } else {
      finalAnswer := response.content;
    }
    steps := steps + [Step("complete", "Function Calling処理完了")];
    out := EngineOutput(finalAnswer, steps);
  }

  // ---------------------------------------------------------------------
  // Mode 5: an agent with two tools
  // ---------------------------------------------------------------------

  const AgentToolNames: seq<string> := ["search_knowledge_base", "get_robot_serial_number"]

  /** The agent executor: the retriever its knowledge-base tool searches, and its tools. */
  datatype Agent = Agent(retriever: VectorIndex, tools: seq<string>)

  /** The engine's `search_knowledge_base` tool, over the agent's retriever. */
  function AgentSearchKnowledgeBase(agent: Agent, query: string, search: Search): string {
    FormatSearchResult(query, search(agent.retriever.chunks, query, agent.retriever.k))
  }

  /** The engine's `get_robot_serial_number` tool. */
  function AgentRobotSerialNumber(agent: Agent): string {
    GetRobotSerialNumber()
  }

  /** The trace names of `_setup_rag_agent` when it builds the agent. */
  const AgentSetupNames: seq<string> := ["setup_rag", "setup_agent"]

  class RagFunctionCallingEngine {
    var retriever: Option<VectorIndex>
    var agentExecutor: Option<Agent>

    /** Once the agent exists, it searches the engine's retriever with the two tools. */
    predicate Valid()
      reads this
    {
      agentExecutor.Some? ==> retriever.Some? && agentExecutor.value == Agent(retriever.value, AgentToolNames)
    }

    constructor ()
      ensures Valid() && retriever == None && agentExecutor == None
    {
      retriever := None;
      agentExecutor := None;
    }

    /** `_setup_rag_agent`: guarded by the agent, not by the retriever. */
    method SetupRagAgent(splits: seq<Chunk>) returns (steps: seq<TraceStep>)
      requires Valid()
      modifies this
      ensures Valid()
      ensures old(agentExecutor).Some? ==> steps == [] && agentExecutor == old(agentExecutor) && retriever == old(retriever)
      ensures old(agentExecutor).None? ==>
                && retriever == Some(VectorIndex(splits, EngineRetrieverK))
                && agentExecutor == Some(Agent(VectorIndex(splits, EngineRetrieverK), AgentToolNames))
                && StepNames(steps) == AgentSetupNames
                && steps[0].description == "RAGシステムをセットアップ（" + NatToString(|splits|) + "チャンク）"
                && steps[0].data == map["chunk_count" := DInt(|splits|)]
                && steps[1].data == map["tool_count" := DInt(2)]
    {
      steps := [];
      if agentExecutor.Some? {
        return;
      }
      retriever := Some(VectorIndex(splits, EngineRetrieverK));
      steps := steps + [DataStep("setup_rag", "RAGシステムをセットアップ（" + NatToString(|splits|) + "チャンク）",
                                 map["chunk_count" := DInt(|splits|)])];
      var tools := AgentToolNames;
      agentExecutor := Some(Agent(retriever.value, tools));
      steps := steps + [DataStep("setup_agent", "RAG + Function Callingエージェントをセットアップ",
                                 map["tool_count" := DInt(|tools|)])];
    }

    /** `process_async`: `runAgent` stands for the agent executor's loop and returns its `output`. */
    method Process(query: string, splits: seq<Chunk>, runAgent: (Agent, string) -> string) returns (out: EngineOutput)
      requires Valid()
      modifies this
      ensures Valid()
      ensures agentExecutor == (if old(agentExecutor).Some? then old(agentExecutor)
                                else Some(Agent(VectorIndex(splits, EngineRetrieverK), AgentToolNames)))
      ensures StepNames(out.steps) == (if old(agentExecutor).Some? then [] else AgentSetupNames) + ["agent_execution", "complete"]
      ensures out.response == runAgent(agentExecutor.value, query)
    {
      var steps := SetupRagAgent(splits);
      steps := steps + [Step("agent_execution", "エージェントが自律的にツールを選択・実行")];
      var response := runAgent(agentExecutor.value, query);
      steps := steps + [Step("complete", "RAG + Function Calling処理完了")];
      out := EngineOutput(response, steps);
    }
  }

  /**
   * One engine object serving two queries builds its agent once, and the
   * agent's knowledge-base tool answers from the chunks it was built on,
   * with three hits.
   */
  method RagFunctionCallingTwice(q1: string, q2: string, splits: seq<Chunk>, runAgent: (Agent, string) -> string,
                                 search: Search, toolQuery: string)
    returns (first: EngineOutput, second: EngineOutput, toolAnswer: string)
    ensures StepNames(first.steps) == AgentSetupNames + ["agent_execution", "complete"]
    ensures StepNames(second.steps) == ["agent_execution", "complete"]
    ensures toolAnswer == FormatSearchResult(toolQuery, search(splits, toolQuery, 3))
  {
    var engine := new RagFunctionCallingEngine();
    first := engine.Process(q1, splits, runAgent);
    second := engine.Process(q2, splits, runAgent);
    toolAnswer := AgentSearchKnowledgeBase(engine.agentExecutor.value, toolQuery, search);
  }
}
