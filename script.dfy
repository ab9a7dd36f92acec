/**
 * The console version of the function-calling mode: a fixed question, one
 * call to the model with `search_manual` bound, and at most one tool run.
 * Its observable behaviour is what it prints, modelled as the arguments of
 * its `print` calls in order, and whether it stops with an exception.
 */
module FunctionCallingConsole {
  import opened Wrappers
  import opened Chat
  import opened Tools

  const Question: string := "エラーコードE-404の対処法は？"

  /** `"-" * 50` */
  const Rule: string := "--------------------------------------------------"

  const MissingFileError: string := "FileNotFoundError: [Errno 2] No such file or directory: 'knowledge.txt'"

  /**
   * `search_manual` of the console script, with `file` the text of
   * `knowledge.txt` or `None` when it does not exist: unlike the back end's
   * copy, a missing file raises.
   */
  method SearchManualOrRaise(file: Option<string>, query: string) returns (r: Result<string>)
    ensures file.None? ==> r == Err(MissingFileError)
    ensures file.Some? ==> r == Ok(SearchManualResult(file.value, query))
  {
    if file.None? {
      return Err(MissingFileError);
    }
    var result := SearchManual(file.value, query);
    r := Ok(result);
  }

  /** One run of the script: the printed lines, and the exception it stopped with, if any. */
  datatype ScriptRun = ScriptRun(printed: seq<string>, raised: Option<string>)

  function Opening(): seq<string> {
    ["=== 実装4: Function Callingのみ ===", "質問: " + Question, Rule, "1. LLMがツール使用を判断中..."]
  }

  function ToolDecided(call: ToolCall): seq<string> {
    ["2. LLMがツール呼び出しを決定しました", "   ツール名: " + call.name, "   引数: " + ToolArgsRepr(call.query)]
  }

  /**
   * `main`. Only the first tool call is looked at, and the tool runs, and
   * the plain model is called, only when that call names `search_manual`.
   */
  method RunMain(file: Option<string>, llmWithTools: ChatModel, llm: ChatModel) returns (run: ScriptRun)
    requires llmWithTools != llm
    modifies llmWithTools, llm
    ensures llmWithTools.sent == old(llmWithTools.sent) + [Question]
    ensures var first := llmWithTools.respond(Question);
            && (first.toolCalls == [] ==>
                  && run == ScriptRun(Opening() + ["2. LLMは直接回答を選択しました", "\n回答:", first.content, Rule], None)
                  && llm.sent == old(llm.sent))
            && (first.toolCalls != [] && first.toolCalls[0].name != "search_manual" ==>
                  && run == ScriptRun(Opening() + ToolDecided(first.toolCalls[0]) + ["   未知のツールが呼び出されました", Rule], None)
                  && llm.sent == old(llm.sent))
            && (first.toolCalls != [] && first.toolCalls[0].name == "search_manual" && file.None? ==>
                  && run == ScriptRun(Opening() + ToolDecided(first.toolCalls[0]), Some(MissingFileError))
                  && llm.sent == old(llm.sent))
            && (first.toolCalls != [] && first.toolCalls[0].name == "search_manual" && file.Some? ==>
                  var result := SearchManualResult(file.value, first.toolCalls[0].query);
                  var finalPrompt := ToolAnswerPrompt(Question, result);
                  && run == ScriptRun(Opening() + ToolDecided(first.toolCalls[0])
                                      + ["3. ツール実行結果:", "   " + result, "4. ツール結果を基に最終回答を生成中...",
                                         "\n最終回答:", llm.respond(finalPrompt).content, Rule], None)
                  && llm.sent == old(llm.sent) + [finalPrompt])
  {
    var response := llmWithTools.Invoke(Question);
    if response.toolCalls != [] {
      var toolCall := response.toolCalls[0];
      var decided := Opening() + ToolDecided(toolCall);
      if toolCall.name == "search_manual" {
        var toolResult := SearchManualOrRaise(file, toolCall.query);
        if toolResult.Err? {
          return ScriptRun(decided, Some(toolResult.message));
        }
        var finalPrompt := ToolAnswerPrompt(Question, toolResult.value);
        var finalResponse := llm.Invoke(finalPrompt);
        run := ScriptRun(decided + ["3. ツール実行結果:", "   " + toolResult.value, "4. ツール結果を基に最終回答を生成中...",
                                    "\n最終回答:", finalResponse.content, Rule], None);
      } else {
        run := ScriptRun(decided + ["   未知のツールが呼び出されました", Rule], None);
      }
    } else {
      run := ScriptRun(Opening() + ["2. LLMは直接回答を選択しました", "\n回答:", response.content, Rule], None);
    }
  }
}
