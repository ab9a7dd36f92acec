/**
 * The back end's stand-alone function-calling mode: one call to the model
 * with `search_manual` bound, at most one tool run, and a numbered trace.
 * The knowledge file is given as its text, or `None` when it does not
 * exist; its path is a parameter because it depends on where the program
 * is installed.
 */
module FunctionCallingOnly {
  import opened Wrappers
  import opened Trace
  import opened Chat
  import opened Text
  import opened Tools

  const MissingFilePrefix: string := "ナレッジベースファイルが見つかりません: "

  /** What `search_manual` returns: a missing file is reported as text, never raised. */
  function SearchManualFileResult(file: Option<string>, knowledgePath: string, query: string): string {
    match file
    case None => MissingFilePrefix + knowledgePath
    case Some(content) => SearchManualResult(content, query)
  }

  /** `search_manual`: read the file if it exists, then filter its lines. */
  method SearchManualFile(file: Option<string>, knowledgePath: string, query: string) returns (result: string)
    ensures result == SearchManualFileResult(file, knowledgePath, query)
  {
    if file.None? {
      return MissingFilePrefix + knowledgePath;
    }
    result := SearchManual(file.value, query);
  }

  /**
   * With the file present the tool's answer is exactly the line filter:
   * the matching stripped lines, or the not-found message. With the file
   * missing it is the path message.
   */
  lemma SearchManualFileCases(file: Option<string>, knowledgePath: string, query: string)
    ensures file.None? ==> SearchManualFileResult(file, knowledgePath, query) == MissingFilePrefix + knowledgePath
    ensures file.Some? ==>
              var lines := Split(file.value, '\n');
              var relevant := RelevantLines(lines, query);
              && (relevant == [] ==> SearchManualFileResult(file, knowledgePath, query) == NotFoundMessage(query))
              && (relevant != [] ==> Split(SearchManualFileResult(file, knowledgePath, query), '\n') == relevant)
  {
    if file.Some? {
      SearchManualLines(file.value, query);
    }
  }

  /** The three ways the first reply can go. */
  datatype Branch = DirectAnswer | ManualSearch | UnknownTool

  /** Only the first tool call is looked at. */
  function BranchOf(reply: Reply): Branch {
    if reply.toolCalls == [] then DirectAnswer
    else if reply.toolCalls[0].name == "search_manual" then ManualSearch
    else UnknownTool
  }

  /** The step numbers of each branch. */
  function BranchStepNumbers(b: Branch): seq<nat> {
    match b
    case DirectAnswer => [1, 2, 3]
    case ManualSearch => [1, 2, 3, 4, 5]
    case UnknownTool => [1, 2, 3, 3]
  }

  /** The details of step 4: a prefixed preview of a long result, a short result as is. */
  function ToolRunDetails(result: string): string {
    if |result| > 100 then "検索結果: " + result[..100] + "..." else result
  }

  datatype FcOnlyOutput = FcOnlyOutput(response: string, steps: seq<NumberedStep>, actualPrompt: string)

  /**
   * `process_function_calling_only`. `llmWithTools` is the model with the
   * tool bound and `llm` the plain model. Unless `search_manual` was called,
   * the plain model is not called and `actual_prompt` stays the user query.
   */
  method ProcessFunctionCallingOnly(userQuery: string, file: Option<string>, knowledgePath: string,
                                    llmWithTools: ChatModel, llm: ChatModel)
    returns (out: FcOnlyOutput)
    requires llmWithTools != llm
    modifies llmWithTools, llm
    ensures llmWithTools.sent == old(llmWithTools.sent) + [userQuery]
    ensures var first := llmWithTools.respond(userQuery);
            var b := BranchOf(first);
            && StepNumbers(out.steps) == BranchStepNumbers(b)
            && out.steps[0] == NumberedStep(1, "LLM初期化完了", "LLMにツールをバインドしました")
            && out.steps[1] == NumberedStep(2, "初回LLM呼び出し", "ツール呼び出し判断: " + (if first.toolCalls != [] then "あり" else "なし"))
            && (b == DirectAnswer ==>
                  && out.steps[2] == NumberedStep(3, "直接回答", "LLMはツールを使用せずに直接回答しました")
                  && out.response == first.content
                  && out.actualPrompt == userQuery
                  && llm.sent == old(llm.sent))
            && (b != DirectAnswer ==>
                  var call := first.toolCalls[0];
                  && out.steps[2] == NumberedStep(3, "ツール呼び出し決定", "ツール: " + call.name + ", 引数: " + ToolArgsRepr(call.query))
                  && (b == UnknownTool ==>
                        && out.steps[3] == NumberedStep(3, "エラー", "未知のツール: " + call.name)
                        && out.response == "未知のツール '" + call.name + "' が呼び出されました"
                        && out.actualPrompt == userQuery
                        && llm.sent == old(llm.sent))
                  && (b == ManualSearch ==>
                        var result := SearchManualFileResult(file, knowledgePath, call.query);
                        && out.steps[3] == NumberedStep(4, "ツール実行完了", ToolRunDetails(result))
                        && out.steps[4] == NumberedStep(5, "最終回答生成", "ツール結果を基に最終回答を生成しました")
                        && out.actualPrompt == ToolAnswerPrompt(userQuery, result)
                        && llm.sent == old(llm.sent) + [out.actualPrompt]
                        && out.response == llm.respond(out.actualPrompt).content))
  {
    var steps := [NumberedStep(1, "LLM初期化完了", "LLMにツールをバインドしました")];
    var response := llmWithTools.Invoke(userQuery);
    var actualPrompt := userQuery;
    steps := steps + [NumberedStep(2, "初回LLM呼び出し", "ツール呼び出し判断: " + (if response.toolCalls != [] then "あり" else "なし"))];
    var finalAnswer;
    if response.toolCalls != [] {
      var toolCall := response.toolCalls[0];
      steps := steps + [NumberedStep(3, "ツール呼び出し決定", "ツール: " + toolCall.name + ", 引数: " + ToolArgsRepr(toolCall.query))];
      if toolCall.name == "search_manual" {
        var toolResult := SearchManualFile(file, knowledgePath, toolCall.query);
        steps := steps + [NumberedStep(4, "ツール実行完了", ToolRunDetails(toolResult))];
        var finalPrompt := ToolAnswerPrompt(userQuery, toolResult);
        actualPrompt := finalPrompt;
        var finalResponse := llm.Invoke(finalPrompt);
        finalAnswer := finalResponse.content;
        steps := steps + [NumberedStep(5, "最終回答生成", "ツール結果を基に最終回答を生成しました")];
      } else {
        finalAnswer := "未知のツール '" + toolCall.name + "' が呼び出されました";
        steps := steps + [NumberedStep(3, "エラー", "未知のツール: " + toolCall.name)];
      }
    } else {
      finalAnswer := response.content;
      steps := steps + [NumberedStep(3, "直接回答", "LLMはツールを使用せずに直接回答しました")];
    }
    out := FcOnlyOutput(finalAnswer, steps, actualPrompt);
  }
}
