/**
 * Hybrid retrieval and the retrieval-grounded pipeline of
 * src/backend/run_rag_only.py: vector hits first, then chunks found by
 * three keyword rules, de-duplicated by text and cut to five.
 */
module HybridRetrieval {
  import opened Text
  import opened Chunks
  import opened Trace
  import opened Chat

  const MaintenanceKeywords: seq<string> := ["メンテナンス", "定期", "保守", "点検", "交換", "清掃"]
  const MaxChunks: nat := 5

  // ---------------------------------------------------------------------
  // Rule 1: error codes, the matches of the pattern E-\d+ in the query
  // ---------------------------------------------------------------------

  /** A match of `E-\d+` can start at position `i` of `q`. */
  predicate ErrorCodeAt(q: string, i: nat) {
    i + 2 < |q| && q[i] == 'E' && q[i + 1] == '-' && IsDigit(q[i + 2])
  }

  predicate IsErrorCode(c: string) {
    |c| >= 3 && c[0] == 'E' && c[1] == '-' && forall k :: 2 <= k < |c| ==> IsDigit(c[k])
  }

  /**
   * `re.findall(r'E-\d+', q)`: scanning left to right, every match takes
   * all the digits that follow and the scan resumes after it.
   */
  function ErrorCodes(q: string): (codes: seq<string>)
    ensures forall k :: 0 <= k < |codes| ==> IsErrorCode(codes[k]) && Contains(q, codes[k])
    decreases |q|
  {
    if |q| < 3 then []
    else if ErrorCodeAt(q, 0) then
      var n := 2 + DigitRun(q[2..]);
      var rest := ErrorCodes(q[n..]);
      forall k | 0 <= k < |rest| ensures Contains(q, rest[k]) { ContainsInSuffix(q, n, rest[k]); }
      assert SubstringAt(q[..n], q, 0);
      [q[..n]] + rest
    else
      var rest := ErrorCodes(q[1..]);
      forall k | 0 <= k < |rest| ensures Contains(q, rest[k]) { ContainsInSuffix(q, 1, rest[k]); }
      rest
  }

  /** The query yields an error code exactly when the pattern matches somewhere in it. */
  lemma {:induction false} ErrorCodesFound(q: string)
    ensures ErrorCodes(q) == [] <==> forall i: nat :: !ErrorCodeAt(q, i)
    decreases |q|
  {
    if |q| < 3 {
    } else if ErrorCodeAt(q, 0) {
    } else {
      ErrorCodesFound(q[1..]);
      forall i: nat ensures ErrorCodeAt(q, i + 1) <==> ErrorCodeAt(q[1..], i) {
      }
      if ErrorCodes(q) == [] {
        forall i: nat ensures !ErrorCodeAt(q, i) {
          if i > 0 {
            assert !ErrorCodeAt(q[1..], i - 1);
          }
        }
      } else {
        var i: nat :| ErrorCodeAt(q[1..], i);
        assert ErrorCodeAt(q, i + 1);
      }
    }
  }

  /**
   * The scan skips any stretch of the query where no match starts: the
   * codes of `a + b` are those of `b` when no position of `a` starts
   * `E-` and a digit.
   */
  lemma {:induction false} ErrorCodesSkip(a: string, b: string)
    requires forall i :: 0 <= i < |a| ==> !ErrorCodeAt(a + b, i)
    ensures ErrorCodes(a + b) == ErrorCodes(b)
    decreases |a|
  {
    if a == [] {
      assert a + b == b;
    } else if |a + b| >= 3 {
      assert !ErrorCodeAt(a + b, 0);
      assert (a + b)[1..] == a[1..] + b;
      forall i | 0 <= i < |a[1..]| ensures !ErrorCodeAt(a[1..] + b, i) {
        assert !ErrorCodeAt(a + b, i + 1);
      }
      ErrorCodesSkip(a[1..], b);
    }
  }

  /** A match at the start of the query is returned first and the scan resumes after it. */
  lemma ErrorCodesAtStart(q: string, n: nat)
    requires ErrorCodeAt(q, 0) && n == 2 + DigitRun(q[2..])
    ensures ErrorCodes(q) == [q[..n]] + ErrorCodes(q[n..])
  {
  }

  /**
   * A match takes every digit that follows `E-` (the next character is not
   * a digit), is returned, and the scan resumes right after it.
   */
  lemma ErrorCodesMatch(ds: string, rest: string)
    requires ds != [] && forall i :: 0 <= i < |ds| ==> IsDigit(ds[i])
    requires rest == [] || !IsDigit(rest[0])
    ensures ErrorCodes("E-" + ds + rest) == ["E-" + ds] + ErrorCodes(rest)
  {
    var q := "E-" + ds + rest;
    assert q[2..] == ds + rest;
    DigitRunAfter(ds, rest);
    ErrorCodesAtStart(q, 2 + |ds|);
    assert q[..2 + |ds|] == "E-" + ds;
    assert q[2 + |ds|..] == rest;
  }

  // ---------------------------------------------------------------------
  // The chunk filter shared by the three rules
  // ---------------------------------------------------------------------

  /** `any(t in s for t in terms)` */
  predicate ContainsAny(s: string, terms: seq<string>) {
    exists t :: t in terms && Contains(s, t)
  }

  /**
   * The chunks that contain at least one of `terms`, in document order,
   * each once per occurrence in `chunks`.
   */
  function ChunksContainingAny(chunks: seq<Chunk>, terms: seq<string>): seq<Chunk> {
    if chunks == [] then []
    else
      var last := chunks[|chunks| - 1];
      ChunksContainingAny(chunks[..|chunks| - 1], terms) + (if ContainsAny(last, terms) then [last] else [])
  }

  /**
   * The filter keeps exactly the chunks that contain a term, each as often
   * as it occurs in `chunks`.
   */
  lemma {:induction false} ChunksContainingAnyCounts(chunks: seq<Chunk>, terms: seq<string>)
    ensures forall x :: multiset(ChunksContainingAny(chunks, terms))[x] ==
                          if ContainsAny(x, terms) then multiset(chunks)[x] else 0
  {
    if chunks != [] {
      var prefix := chunks[..|chunks| - 1];
      var last := chunks[|chunks| - 1];
      assert chunks == prefix + [last];
      ChunksContainingAnyCounts(prefix, terms);
    }
  }

  lemma ChunksContainingAnyMembers(chunks: seq<Chunk>, terms: seq<string>)
    ensures forall x :: x in ChunksContainingAny(chunks, terms) <==> x in chunks && ContainsAny(x, terms)
  {
    ChunksContainingAnyCounts(chunks, terms);
    forall x ensures x in ChunksContainingAny(chunks, terms) <==> x in chunks && ContainsAny(x, terms) {
      assert x in ChunksContainingAny(chunks, terms) <==> multiset(ChunksContainingAny(chunks, terms))[x] > 0;
      assert x in chunks <==> multiset(chunks)[x] > 0;
    }
  }

  /** With no search terms nothing is found. */
  lemma {:induction false} NoTermsNoHits(chunks: seq<Chunk>)
    ensures ChunksContainingAny(chunks, []) == []
  {
    if chunks != [] {
      NoTermsNoHits(chunks[..|chunks| - 1]);
    }
  }

  /** `for doc in splits: for t in terms: if t in doc: append(doc); break` */
  method CollectMatching(splits: seq<Chunk>, terms: seq<string>) returns (hits: seq<Chunk>)
    ensures hits == ChunksContainingAny(splits, terms)
  {
    hits := [];
    for i := 0 to |splits|
      invariant hits == ChunksContainingAny(splits[..i], terms)
    {
      assert splits[..i + 1][..i] == splits[..i];
      var doc := splits[i];
      var j := 0;
      while j < |terms|
        invariant 0 <= j <= |terms|
        invariant hits == ChunksContainingAny(splits[..i], terms)
        invariant forall k :: 0 <= k < j ==> !Contains(doc, terms[k])
      {
        if Contains(doc, terms[j]) {
          hits := hits + [doc];
          break;
        }
        j := j + 1;
      }
    }
    assert splits[..|splits|] == splits;
  }

  // ---------------------------------------------------------------------
  // Rules 2 and 3, and the keyword search as a whole
  // ---------------------------------------------------------------------

  predicate IsMaintenanceQuery(query: string) {
    ContainsAny(query, MaintenanceKeywords)
  }

  /** `[w for w in words if len(w) > 2]` */
  function LongWords(words: seq<string>): seq<string> {
    if words == [] then []
    else
      var last := words[|words| - 1];
      LongWords(words[..|words| - 1]) + (if |last| > 2 then [last] else [])
  }

  lemma {:induction false} LongWordsMembers(words: seq<string>)
    ensures forall w :: w in LongWords(words) <==> w in words && |w| > 2
  {
    if words != [] {
      var prefix := words[..|words| - 1];
      assert words == prefix + [words[|words| - 1]];
      LongWordsMembers(prefix);
    }
  }

  /** `query_words`: the whitespace-separated tokens of the query longer than two characters. */
  function QueryWords(query: string): seq<string> {
    LongWords(Words(query))
  }

  function ErrorCodeHits(query: string, splits: seq<Chunk>): seq<Chunk> {
    ChunksContainingAny(splits, ErrorCodes(query))
  }

  function MaintenanceHits(query: string, splits: seq<Chunk>): seq<Chunk> {
    if IsMaintenanceQuery(query) then ChunksContainingAny(splits, MaintenanceKeywords) else []
  }

  function GeneralTermHits(query: string, splits: seq<Chunk>): seq<Chunk> {
    ChunksContainingAny(splits, QueryWords(query))
  }

  /** `keyword_docs`: the hits of the three rules, rule by rule, duplicates kept. */
  function KeywordHits(query: string, splits: seq<Chunk>): seq<Chunk> {
    ErrorCodeHits(query, splits) + MaintenanceHits(query, splits) + GeneralTermHits(query, splits)
  }

  method KeywordSearch(query: string, splits: seq<Chunk>) returns (keywordDocs: seq<Chunk>)
    ensures keywordDocs == KeywordHits(query, splits)
  {
    keywordDocs := [];
    var errorCodes := ErrorCodes(query);
    if errorCodes == [] {
      NoTermsNoHits(splits);
    } else {
      var hits := CollectMatching(splits, errorCodes);
      keywordDocs := keywordDocs + hits;
    }
    assert keywordDocs == ErrorCodeHits(query, splits);
    if IsMaintenanceQuery(query) {
      var hits := CollectMatching(splits, MaintenanceKeywords);
      keywordDocs := keywordDocs + hits;
    }
    assert keywordDocs == ErrorCodeHits(query, splits) + MaintenanceHits(query, splits);
    var queryWords := QueryWords(query);
    var hits := CollectMatching(splits, queryWords);
    keywordDocs := keywordDocs + hits;
  }

  /** What each rule contributes, stated rule by rule. */
  lemma KeywordRules(query: string, splits: seq<Chunk>, x: Chunk)
    ensures x in ErrorCodeHits(query, splits) <==>
              x in splits && exists c :: c in ErrorCodes(query) && Contains(x, c)
    ensures x in MaintenanceHits(query, splits) <==>
              IsMaintenanceQuery(query) && x in splits && ContainsAny(x, MaintenanceKeywords)
    ensures x in GeneralTermHits(query, splits) <==>
              x in splits && exists w :: w in Words(query) && |w| > 2 && Contains(x, w)
  {
    ChunksContainingAnyMembers(splits, ErrorCodes(query));
    ChunksContainingAnyMembers(splits, MaintenanceKeywords);
    ChunksContainingAnyMembers(splits, QueryWords(query));
    LongWordsMembers(Words(query));
  }

  // ---------------------------------------------------------------------
  // The merge
  // ---------------------------------------------------------------------

  /** What `_hybrid_retrieval` returns for the vector hits `vectorDocs`. */
  function HybridResult(query: string, splits: seq<Chunk>, vectorDocs: seq<Chunk>): seq<Chunk> {
    Take(Dedup(vectorDocs + KeywordHits(query, splits)), MaxChunks)
  }

  /** `_hybrid_retrieval`, with the retriever's answer `vectorDocs` given. */
  method HybridRetrieval(query: string, splits: seq<Chunk>, vectorDocs: seq<Chunk>) returns (docs: seq<Chunk>)
    ensures docs == HybridResult(query, splits, vectorDocs)
  {
    var keywordDocs := KeywordSearch(query, splits);
    var combinedDocs, seenContent := AppendUnseen([], [], {}, vectorDocs);
    assert [] + vectorDocs == vectorDocs;
    combinedDocs, seenContent := AppendUnseen(vectorDocs, combinedDocs, seenContent, keywordDocs);
    docs := Take(combinedDocs, MaxChunks);
  }

  /**
   * The merge is duplicate-free and at most five long; the distinct vector
   * hits come first, in retriever order; whatever follows is a keyword hit
   * that is not a vector hit; nothing else appears.
   */
  lemma {:induction false} HybridResultProperties(query: string, splits: seq<Chunk>, vectorDocs: seq<Chunk>)
    ensures var r := HybridResult(query, splits, vectorDocs);
            var v := Dedup(vectorDocs);
            && NoDuplicates(r)
            && |r| <= MaxChunks
            && Take(v, MaxChunks) <= r
            && (forall k :: |v| <= k < |r| ==> r[k] in KeywordHits(query, splits) && r[k] !in vectorDocs)
            && (forall x :: x in r ==> x in vectorDocs || x in KeywordHits(query, splits))
  {
    var kw := KeywordHits(query, splits);
    var all := Dedup(vectorDocs + kw);
    DedupConcat(vectorDocs, kw);
    var r := HybridResult(query, splits, vectorDocs);
    assert r == all[..|r|];
    forall i, j | 0 <= i < j < |r| ensures r[i] != r[j] {
      assert r[i] == all[i] && r[j] == all[j];
    }
    forall x | x in r ensures x in vectorDocs || x in kw {
      assert x in all;
    }
  }

  lemma DistinctCard(r: seq<Chunk>)
    requires NoDuplicates(r)
    ensures |set x | x in r| == |r|
  {
    if r != [] {
      var t := r[1..];
      assert NoDuplicates(t);
      DistinctCard(t);
      assert (set x | x in r) == (set x | x in t) + {r[0]};
      assert r[0] !in (set x | x in t);
    }
  }

  lemma SubsetCard(a: set<Chunk>, b: set<Chunk>)
    requires a <= b
    ensures |a| <= |b|
  {
    if a != {} {
      var x :| x in a;
      SubsetCard(a - {x}, b - {x});
    }
  }

  lemma SetCard(s: seq<Chunk>)
    ensures |set x | x in s| <= |s|
  {
    if s != [] {
      SetCard(s[1..]);
      assert (set x | x in s) == (set x | x in s[1..]) + {s[0]};
    }
  }

  /**
   * When the retriever returns chunks of the corpus and the corpus has at
   * most five chunks, the cut to five drops nothing: every vector hit and
   * every keyword hit is returned.
   */
  lemma SmallCorpusKeepsEveryHit(query: string, splits: seq<Chunk>, vectorDocs: seq<Chunk>)
    requires |splits| <= MaxChunks
    requires forall x :: x in vectorDocs ==> x in splits
    ensures forall x :: x in HybridResult(query, splits, vectorDocs) <==> x in vectorDocs || x in KeywordHits(query, splits)
  {
    var kw := KeywordHits(query, splits);
    var all := Dedup(vectorDocs + kw);
    forall x | x in kw ensures x in splits {
      KeywordRules(query, splits, x);
    }
    DistinctCard(all);
    SetCard(splits);
    assert (set x | x in all) <= (set x | x in splits);
    SubsetCard(set x | x in all, set x | x in splits);
    assert HybridResult(query, splits, vectorDocs) == all;
  }

  // ---------------------------------------------------------------------
  // process_rag_only
  // ---------------------------------------------------------------------

  datatype RagOnlyOutput = RagOnlyOutput(response: string, steps: seq<TraceStep>, actualPrompt: string)

  function RagOnlyPrompt(context: string, question: string): string {
    "以下の製品取扱説明書を参考にして、質問に答えてください。\n\n"
    + "=== 製品取扱説明書（関連情報） ===\n" + context + "\n\n"
    + "=== 質問 ===\n" + question + "\n\n"
    + "=== 回答 ===\n" + "製品取扱説明書の内容に基づいて、正確な情報を提供してください。"
  }

  function SearchDebugInfo(docs: seq<Chunk>): string {
    var info := "ハイブリッド検索で取得されたチャンク: " + NatToString(|docs|) + "個";
    if docs != [] then info + ", 最初のチャンク内容の一部: " + Take(docs[0], 100) + "..." else info
  }

  /** The `debug_info` and `retrieved_content_preview` fields of the retrieval step. */
  function RetrievalDebug(docs: seq<Chunk>): map<string, Datum> {
    map["debug_info" := DStr(SearchDebugInfo(docs)),
        "retrieved_content_preview" := DStr(Truncated(Join("\n\n", docs), 200))]
  }

  /**
   * `process_rag_only` once the knowledge file has been split into `splits`:
   * `vectorSearch(q, k)` stands for the FAISS retriever built over the
   * splits with `k` results, `llm` for the chat model given the message
   * text.
   */
  method ProcessRagOnly(query: string, splits: seq<Chunk>, vectorSearch: (string, nat) -> seq<Chunk>,
                        llm: string -> string)
    returns (out: RagOnlyOutput)
    ensures var docs := HybridResult(query, splits, vectorSearch(query, Min(MaxChunks, |splits|)));
            var context := Join("\n\n", docs);
            && StepNames(out.steps) == ["initialize", "setup_vectorstore", "hybrid_retrieval", "generate", "complete"]
            && out.steps[1].description == "ドキュメントを" + NatToString(|splits|) + "個のチャンクに分割し、ベクトルストアを構築"
            && out.steps[2].description == "ハイブリッド検索で" + NatToString(|docs|) + "個のチャンクを取得"
            && out.steps[2].extra == RetrievalDebug(docs)
            && out.actualPrompt == ChatFormat(RagOnlyPrompt(context, query))
            && out.response == llm(RagOnlyPrompt(context, query))
  {
    var setupStep := Step("setup_vectorstore", "ドキュメントを" + NatToString(|splits|) + "個のチャンクに分割し、ベクトルストアを構築");
    var maxChunks := Min(MaxChunks, |splits|);
    var vectorDocs := vectorSearch(query, maxChunks);
    var retrievedDocs := HybridRetrieval(query, splits, vectorDocs);
    var context := Join("\n\n", retrievedDocs);
    var debugInfo := SearchDebugInfo(retrievedDocs);
    var retrievalStep := TraceStep("hybrid_retrieval", "ハイブリッド検索で" + NatToString(|retrievedDocs|) + "個のチャンクを取得", map[],
                                   map["debug_info" := DStr(debugInfo),
                                       "retrieved_content_preview" := DStr(Truncated(context, 200))]);
    assert retrievalStep.extra == RetrievalDebug(retrievedDocs);
    var finalPrompt := ChatFormat(RagOnlyPrompt(context, query));
    var response := llm(RagOnlyPrompt(context, query));
    var steps := [Step("initialize", "RAGエンジンを初期化"), setupStep, retrievalStep,
                  Step("generate", "LLMで回答を生成"), Step("complete", "処理完了")];
    out := RagOnlyOutput(response, steps, finalPrompt);
  }
}
