/**
 * The tools handed to the language model: the line-grep `search_manual`
 * (three identical copies in the repository), the formatting of
 * `search_knowledge_base` results, and `get_robot_serial_number`.
 */
module Tools {
  import opened Text
  import opened Chunks

  /** The message both search tools return when they find nothing. */
  function NotFoundMessage(query: string): string {
    "'" + query + "'に関する情報は見つかりませんでした。"
  }

  /** `query.lower() in line.lower()` */
  predicate LineMatches(line: string, query: string) {
    Contains(Lower(line), Lower(query))
  }

  /**
   * `relevant_lines`: the stripped lines that match, in document order; each
   * input line contributes at most one output line.
   */
  function RelevantLines(lines: seq<string>, query: string): (r: seq<string>)
    ensures |r| <= |lines|
  {
    if lines == [] then []
    else
      var last := lines[|lines| - 1];
      RelevantLines(lines[..|lines| - 1], query) + (if LineMatches(last, query) then [Strip(last)] else [])
  }

  /** Every output line is the stripped form of a matching input line. */
  lemma {:induction false} RelevantLinesSound(lines: seq<string>, query: string, k: nat)
    requires k < |RelevantLines(lines, query)|
    ensures exists i :: 0 <= i < |lines| && LineMatches(lines[i], query) && RelevantLines(lines, query)[k] == Strip(lines[i])
  {
    var n := |lines| - 1;
    var prefix := lines[..n];
    var p := RelevantLines(prefix, query);
    if k < |p| {
      RelevantLinesSound(prefix, query, k);
      var i :| 0 <= i < |prefix| && LineMatches(prefix[i], query) && p[k] == Strip(prefix[i]);
      assert lines[i] == prefix[i];
    } else {
      assert LineMatches(lines[n], query);
    }
  }

  /** Every matching input line appears, stripped, in the output. */
  lemma {:induction false} RelevantLinesComplete(lines: seq<string>, query: string, i: nat)
    requires i < |lines| && LineMatches(lines[i], query)
    ensures Strip(lines[i]) in RelevantLines(lines, query)
  {
    var n := |lines| - 1;
    var prefix := lines[..n];
    var p := RelevantLines(prefix, query);
    if i < n {
      assert LineMatches(prefix[i], query) by { assert prefix[i] == lines[i]; }
      RelevantLinesComplete(prefix, query, i);
      assert Strip(lines[i]) in p by { assert prefix[i] == lines[i]; }
      assert p <= RelevantLines(lines, query);
    } else {
      assert RelevantLines(lines, query) == p + [Strip(lines[n])];
    }
  }

  /** What `search_manual` returns for the knowledge text `content`. */
  function SearchManualResult(content: string, query: string): string {
    var relevant := RelevantLines(Split(content, '\n'), query);
    if relevant != [] then Join("\n", relevant) else NotFoundMessage(query)
  }

  /** The body of `search_manual` once the knowledge file has been read. */
  method SearchManual(content: string, query: string) returns (result: string)
    ensures result == SearchManualResult(content, query)
  {
    var lines := Split(content, '\n');
    var relevantLines: seq<string> := [];
    for i := 0 to |lines|
      invariant relevantLines == RelevantLines(lines[..i], query)
    {
      assert lines[..i + 1][..i] == lines[..i];
      if Contains(Lower(lines[i]), Lower(query)) {
        relevantLines := relevantLines + [Strip(lines[i])];
      }
    }
    assert lines[..|lines|] == lines;
    if relevantLines != [] {
      result := Join("\n", relevantLines);
    } else {
      result := NotFoundMessage(query);
    }
  }

  /**
   * The match ignores the case of the query: queries that lower-case alike
   * select the same lines.
   */
  lemma {:induction false} RelevantLinesIgnoreQueryCase(lines: seq<string>, q1: string, q2: string)
    requires Lower(q1) == Lower(q2)
    ensures RelevantLines(lines, q1) == RelevantLines(lines, q2)
  {
    if lines != [] {
      RelevantLinesIgnoreQueryCase(lines[..|lines| - 1], q1, q2);
    }
  }

  lemma StripKeepsOut(s: string, c: char)
    requires c !in s
    ensures c !in Strip(s)
  {
    var r := Strip(s);
    StripSpec(s);
    var i: nat :| i <= |s| - |r| && s[i..i + |r|] == r && AllSpace(s[..i]) && AllSpace(s[i + |r|..]);
  }

  /**
   * A successful search can be split back, line by line, into exactly the
   * stripped matching lines; a search with no matching line returns the
   * not-found message.
   */
  lemma SearchManualLines(content: string, query: string)
    ensures var lines := Split(content, '\n');
            var relevant := RelevantLines(lines, query);
            && (relevant == [] <==> forall i :: 0 <= i < |lines| ==> !LineMatches(lines[i], query))
            && (relevant == [] ==> SearchManualResult(content, query) == NotFoundMessage(query))
            && (relevant != [] ==> Split(SearchManualResult(content, query), '\n') == relevant)
  {
    var lines := Split(content, '\n');
    var relevant := RelevantLines(lines, query);
    if relevant != [] {
      forall k | 0 <= k < |relevant| ensures '\n' !in relevant[k] {
        RelevantLinesSound(lines, query, k);
        var i :| 0 <= i < |lines| && LineMatches(lines[i], query) && relevant[k] == Strip(lines[i]);
        SplitPiecesFree(content, '\n', i);
        StripKeepsOut(lines[i], '\n');
      }
      SplitJoin(relevant, '\n');
      RelevantLinesSound(lines, query, 0);
    } else {
      forall i | 0 <= i < |lines| ensures !LineMatches(lines[i], query) {
        if LineMatches(lines[i], query) {
          RelevantLinesComplete(lines, query, i);
        }
      }
    }
  }

  /** The second prompt of the function-calling flows: the question and the tool's output. */
  function ToolAnswerPrompt(query: string, toolResult: string): string {
    "以下のツール実行結果を基に、ユーザーの質問に答えてください。\n\n"
    + "質問: " + query + "\n\n"
    + "ツール実行結果:\n" + toolResult + "\n\n"
    + "回答:"
  }

  /** The prompt holds the question and the whole tool output. */
  lemma ToolAnswerPromptEmbeds(query: string, toolResult: string)
    ensures Contains(ToolAnswerPrompt(query, toolResult), query)
    ensures Contains(ToolAnswerPrompt(query, toolResult), toolResult)
  {
    var a := "以下のツール実行結果を基に、ユーザーの質問に答えてください。\n\n" + "質問: ";
    var b := "\n\n" + "ツール実行結果:\n" + toolResult + "\n\n" + "回答:";
    assert ToolAnswerPrompt(query, toolResult) == a + query + b;
    ContainsInfix(a, query, b);
    var c := a + query + "\n\n" + "ツール実行結果:\n";
    var d := "\n\n" + "回答:";
    assert ToolAnswerPrompt(query, toolResult) == c + toolResult + d;
    ContainsInfix(c, toolResult, d);
  }

  // `str` of a tool's arguments, `{'query': ...}`, with Python's `repr` of the string

  /** `repr` quotes with `"` only when the text holds `'` and no `"`. */
  function ReprQuote(s: string): char {
    if '\'' in s && '"' !in s then '"' else '\''
  }

  function ReprChar(c: char, quote: char): string {
    if c == quote || c == '\\' then ['\\', c]
    else if c == '\n' then "\\n"
    else if c == '\r' then "\\r"
    else if c == '\t' then "\\t"
    else [c]
  }

  function ReprChars(s: string, quote: char): string {
    if s == [] then [] else ReprChar(s[0], quote) + ReprChars(s[1..], quote)
  }

  function PyRepr(s: string): string {
    [ReprQuote(s)] + ReprChars(s, ReprQuote(s)) + [ReprQuote(s)]
  }

  predicate PlainChar(c: char) {
    c != '\'' && c != '\\' && c != '\n' && c != '\r' && c != '\t'
  }

  /** Text without `'`, backslashes, tabs or line breaks is shown as is, in single quotes. */
  lemma {:induction false} PyReprPlain(s: string)
    requires forall i :: 0 <= i < |s| ==> PlainChar(s[i])
    ensures PyRepr(s) == "'" + s + "'"
  {
    ReprCharsPlain(s);
  }

  lemma {:induction false} ReprCharsPlain(s: string)
    requires forall i :: 0 <= i < |s| ==> PlainChar(s[i])
    ensures ReprChars(s, '\'') == s
  {
    if s != [] {
      ReprCharsPlain(s[1..]);
      assert s == [s[0]] + s[1..];
    }
  }

  function ToolArgsRepr(query: string): string {
    "{'query': " + PyRepr(query) + "}"
  }

  const SearchHeader: string := "検索結果:\n"

  /**
   * What `search_knowledge_base` returns for the retrieved documents `docs`:
   * the header and the texts joined by blank lines, or the not-found message.
   */
  function FormatSearchResult(query: string, docs: seq<Chunk>): (r: string)
    ensures docs != [] <==> |r| >= |SearchHeader| && r[..|SearchHeader|] == SearchHeader
    ensures docs != [] ==> r == SearchHeader + Join("\n\n", docs)
    ensures docs == [] ==> r == NotFoundMessage(query)
    ensures forall k :: 0 <= k < |docs| ==> Contains(r, docs[k])
  {
    if docs != [] then
      var body := Join("\n\n", docs);
      forall k | 0 <= k < |docs| ensures Contains(SearchHeader + body, docs[k]) {
        JoinContains("\n\n", docs, k);
        assert (SearchHeader + body)[|SearchHeader|..] == body;
        ContainsInSuffix(SearchHeader + body, |SearchHeader|, docs[k]);
      }
      SearchHeader + body
    else
      assert NotFoundMessage(query)[0] != SearchHeader[0];
      NotFoundMessage(query)
  }

  const RobotSerialNumber: string := "AW3-2024-001255"

  /** `get_robot_serial_number`: a fixed identifier, whatever the state or the query. */
  function GetRobotSerialNumber(): (r: string)
    ensures r == RobotSerialNumber
  {
    RobotSerialNumber
  }
}
