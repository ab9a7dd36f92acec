/**
 * The advanced retrieval pipeline of src/backend/run_rag_advanced.py:
 * query expansion, multi-query retrieval, cross-encoder re-ranking, the
 * long-context reorder and the trace and statistics it reports.
 */
module AdvancedRag {
  import opened Wrappers
  import opened Text
  import opened Chunks
  import opened Trace
  import opened Chat

  const MaxQueries: nat := 3
  const RetrieverK: nat := 12
  const MaxCandidates: nat := 20
  const ScoredLength: nat := 800
  const FinalTopK: nat := 4

  // ---------------------------------------------------------------------
  // Query expansion
  // ---------------------------------------------------------------------

  function ExpansionPrompt(question: string): string {
    "元の質問: " + question + "\n\n"
    + "上記を異なる表現で書き換えた2つの検索クエリを生成してください:\n"
    + "1. [クエリ1]\n"
    + "2. [クエリ2]"
  }

  /**
   * `re.match(r'\d+\.\s*(.+)', line.strip())` and `group(1).strip()`.
   * The line comes from a split on newlines, so `.` matches every one of
   * its characters; the stripped line ends in a non-space, so `\s*` takes
   * exactly the whitespace after the dot and the capture is non-empty.
   */
  function NumberedEntry(line: string): Option<string> {
    var l := Strip(line);
    var d := DigitRun(l);
    if 0 < d && d + 1 < |l| && l[d] == '.' then Some(Strip(l[d + 1..])) else None
  }

  /** A parsed entry is non-empty and carries no surrounding whitespace. */
  lemma NumberedEntryTrimmed(line: string)
    requires NumberedEntry(line).Some?
    ensures NumberedEntry(line).value != []
    ensures Strip(NumberedEntry(line).value) == NumberedEntry(line).value
  {
    var l := Strip(line);
    var d := DigitRun(l);
    var rest := l[d + 1..];
    StripSpec(line);
    assert rest[|rest| - 1] == l[|l| - 1];
    StripNonEmpty(rest);
    StripIdempotent(rest);
  }

  /** A list item `<digits>.<whitespace><text>` yields its text. */
  lemma NumberedEntryOfItem(ds: string, sp: string, body: string)
    requires ds != [] && forall i :: 0 <= i < |ds| ==> IsDigit(ds[i])
    requires AllSpace(sp)
    requires body != [] && !IsSpace(body[0]) && !IsSpace(body[|body| - 1])
    ensures NumberedEntry(ds + "." + sp + body) == Some(body)
  {
    var line := ds + "." + sp + body;
    assert line[0] == ds[0] && line[|line| - 1] == body[|body| - 1];
    StripOfTrimmed(line);
    DigitRunAfter(ds, "." + sp + body);
    assert line == ds + ("." + sp + body);
    assert DigitRun("." + sp + body) == 0;
    assert line[|ds|] == '.';
    assert line[|ds| + 1..] == sp + body;
    StripAfterSpace(sp, body);
  }

  /** A line that does not start, once stripped, with a digit yields nothing. */
  lemma NumberedEntryNeedsDigit(line: string)
    requires Strip(line) == [] || !IsDigit(Strip(line)[0])
    ensures NumberedEntry(line) == None
  {
  }

  /** The parse of each line. */
  function LineEntries(lines: seq<string>): (r: seq<Option<string>>)
    ensures |r| == |lines| && forall k :: 0 <= k < |lines| ==> r[k] == NumberedEntry(lines[k])
  {
    seq(|lines|, k requires 0 <= k < |lines| => NumberedEntry(lines[k]))
  }

  /** The captures of the lines that match, in line order. */
  function ParsedEntries(lines: seq<string>): seq<string> {
    Somes(LineEntries(lines))
  }

  /** Every entry is the capture of some line. */
  lemma ParsedEntriesSound(lines: seq<string>, k: nat)
    requires k < |ParsedEntries(lines)|
    ensures exists i :: 0 <= i < |lines| && NumberedEntry(lines[i]) == Some(ParsedEntries(lines)[k])
  {
    SomesSound(LineEntries(lines), k);
  }

  /** The capture of every matching line is an entry. */
  lemma ParsedEntriesComplete(lines: seq<string>, i: nat)
    requires i < |lines| && NumberedEntry(lines[i]).Some?
    ensures NumberedEntry(lines[i]).value in ParsedEntries(lines)
  {
    SomesComplete(LineEntries(lines), i);
  }

  /**
   * `_generate_queries_optimized` for the model output `output`: the
   * original question first, then the parsed entries, at most three in all.
   */
  function ExpandedQueries(question: string, output: string): (r: seq<string>)
    ensures 1 <= |r| <= MaxQueries && r[0] == question
    ensures r[1..] == Take(ParsedEntries(Split(Strip(output), '\n')), MaxQueries - 1)
  {
    var entries := ParsedEntries(Split(Strip(output), '\n'));
    var r := Take([question] + entries, MaxQueries);
    assert r[1..] == ([question] + entries)[1..|r|];
    r
  }

  method GenerateQueries(question: string, llm: string -> string) returns (queries: seq<string>)
    ensures queries == ExpandedQueries(question, llm(ExpansionPrompt(question)))
  {
    var result := llm(ExpansionPrompt(question));
    var expandedQueries := [question];
    var lines := Split(Strip(result), '\n');
    ghost var entries := LineEntries(lines);
    for i := 0 to |lines|
      invariant expandedQueries == [question] + Somes(entries[..i])
    {
      assert entries[..i + 1][..i] == entries[..i];
      var m := NumberedEntry(lines[i]);
      if m.Some? {
        expandedQueries := expandedQueries + [m.value];
      }
    }
    assert entries[..|lines|] == entries;
    queries := Take(expandedQueries, MaxQueries);
  }

  // ---------------------------------------------------------------------
  // Re-ranking
  // ---------------------------------------------------------------------

  /** A candidate with its input position and its cross-encoder score. */
  datatype Scored = Scored(pos: nat, doc: Chunk, score: int)

  /**
   * The order of a stable sort by descending score: a higher score first,
   * equal scores in input order.
   */
  predicate Before(a: Scored, b: Scored) {
    a.score > b.score || (a.score == b.score && a.pos < b.pos)
  }

  predicate Ranked(s: seq<Scored>) {
    forall i, j :: 0 <= i < j < |s| ==> Before(s[i], s[j])
  }

  function Insert(x: Scored, s: seq<Scored>): (r: seq<Scored>)
    ensures multiset(r) == multiset(s) + multiset{x}
  {
    if s == [] then [x]
    else if Before(x, s[0]) then [x] + s
    else
      assert s == [s[0]] + s[1..];
      [s[0]] + Insert(x, s[1..])
  }

  lemma {:induction false} InsertRanked(x: Scored, s: seq<Scored>)
    requires Ranked(s)
    requires forall k :: 0 <= k < |s| ==> s[k].pos != x.pos
    ensures Ranked(Insert(x, s))
  {
    if s != [] && !Before(x, s[0]) {
      var t := s[1..];
      assert Ranked(t);
      InsertRanked(x, t);
      var r := Insert(x, t);
      forall k | 0 <= k < |r| ensures Before(s[0], r[k]) {
        assert r[k] in multiset(t) + multiset{x} by {
          assert r[k] in multiset(r);
        }
        if r[k] != x {
          assert r[k] in t;
        }
      }
    }
  }

  /** Python's stable `sort(key=score, reverse=True)`, as an insertion sort. */
  function SortByScore(s: seq<Scored>): (r: seq<Scored>)
    ensures multiset(r) == multiset(s)
  {
    if s == [] then []
    else
      var p := s[..|s| - 1];
      assert s == p + [s[|s| - 1]];
      Insert(s[|s| - 1], SortByScore(p))
  }

  lemma {:induction false} SortByScoreRanked(s: seq<Scored>)
    requires forall i, j :: 0 <= i < j < |s| ==> s[i].pos != s[j].pos
    ensures Ranked(SortByScore(s))
  {
    if s != [] {
      var p := s[..|s| - 1];
      var x := s[|s| - 1];
      SortByScoreRanked(p);
      var q := SortByScore(p);
      forall k | 0 <= k < |q| ensures q[k].pos != x.pos {
        assert q[k] in multiset(p) by {
          assert q[k] in multiset(q);
        }
      }
      InsertRanked(x, q);
    }
  }

  /** `list(zip(documents, scores))`, each pair tagged with its position. */
  function Zip(docs: seq<Chunk>, scores: seq<int>): (r: seq<Scored>)
    ensures |r| == Min(|docs|, |scores|)
    ensures forall k :: 0 <= k < |r| ==> r[k] == Scored(k, docs[k], scores[k])
  {
    seq(Min(|docs|, |scores|), k requires 0 <= k < Min(|docs|, |scores|) => Scored(k, docs[k], scores[k]))
  }

  /** `query_doc_pairs`: the query with each candidate's first 800 characters. */
  function ScoringPairs(query: string, docs: seq<Chunk>): (r: seq<(string, string)>)
    ensures |r| == |docs|
    ensures forall k :: 0 <= k < |docs| ==>
              r[k].0 == query && |r[k].1| == Min(ScoredLength, |docs[k]|) && r[k].1 == docs[k][..|r[k].1|]
  {
    seq(|docs|, k requires 0 <= k < |docs| => (query, Take(docs[k], ScoredLength)))
  }

  /**
   * The candidates in re-ranked order, for the cross-encoder `predict` that
   * scores a batch of pairs.
   */
  function RankedCandidates(query: string, documents: seq<Chunk>, predict: seq<(string, string)> -> seq<int>): seq<Scored> {
    var docs := Take(documents, MaxCandidates);
    SortByScore(Zip(docs, predict(ScoringPairs(query, docs))))
  }

  function DocsOf(s: seq<Scored>): (r: seq<Chunk>)
    ensures |r| == |s| && forall k :: 0 <= k < |s| ==> r[k] == s[k].doc
  {
    seq(|s|, k requires 0 <= k < |s| => s[k].doc)
  }

  /** What `_rerank_documents_optimized` returns. */
  function RerankResult(query: string, documents: seq<Chunk>, topK: nat, predict: seq<(string, string)> -> seq<int>): seq<Chunk> {
    if documents == [] then documents
    else DocsOf(Take(RankedCandidates(query, documents, predict), topK))
  }

  method Rerank(query: string, documents: seq<Chunk>, topK: nat, predict: seq<(string, string)> -> seq<int>)
    returns (result: seq<Chunk>)
    ensures result == RerankResult(query, documents, topK, predict)
  {
    if documents == [] {
      return documents;
    }
    var maxCandidates := Min(MaxCandidates, |documents|);
    var docs := documents[..maxCandidates];
    var queryDocPairs: seq<(string, string)> := [];
    for i := 0 to |docs|
      invariant |queryDocPairs| == i
      invariant forall k :: 0 <= k < i ==> queryDocPairs[k] == (query, Take(docs[k], ScoredLength))
    {
      var content := docs[i];
      content := if |content| > ScoredLength then content[..ScoredLength] else content;
      queryDocPairs := queryDocPairs + [(query, content)];
    }
    assert queryDocPairs == ScoringPairs(query, docs);
    var scores := predict(queryDocPairs);
    var scoredDocs := SortByScore(Zip(docs, scores));
    result := DocsOf(Take(scoredDocs, topK));
  }

  /**
   * The ranking is a permutation of the scored candidates (at most the first
   * twenty inputs), in non-increasing score order, equal scores keeping their
   * input order.
   */
  lemma RankedCandidatesOrder(query: string, documents: seq<Chunk>, predict: seq<(string, string)> -> seq<int>)
    ensures var docs := Take(documents, MaxCandidates);
            var r := RankedCandidates(query, documents, predict);
            && multiset(r) == multiset(Zip(docs, predict(ScoringPairs(query, docs))))
            && (forall i, j :: 0 <= i < j < |r| ==> r[i].score >= r[j].score)
            && (forall i, j :: 0 <= i < j < |r| && r[i].score == r[j].score ==> r[i].pos < r[j].pos)
  {
    var docs := Take(documents, MaxCandidates);
    SortByScoreRanked(Zip(docs, predict(ScoringPairs(query, docs))));
  }

  /** The re-ranker keeps at most `topK` of the first twenty inputs. */
  lemma RerankBounds(query: string, documents: seq<Chunk>, topK: nat, predict: seq<(string, string)> -> seq<int>)
    ensures var r := RerankResult(query, documents, topK, predict);
            && |r| <= Min(topK, Min(MaxCandidates, |documents|))
            && (forall k :: 0 <= k < |r| ==> r[k] in documents[..Min(MaxCandidates, |documents|)])
  {
    if documents != [] {
      var docs := Take(documents, MaxCandidates);
      var z := Zip(docs, predict(ScoringPairs(query, docs)));
      var s := RankedCandidates(query, documents, predict);
      var r := RerankResult(query, documents, topK, predict);
      assert |s| == |z|;
      forall k | 0 <= k < |r| ensures r[k] in docs {
        assert r[k] == s[k].doc;
        assert s[k] in multiset(z) by {
          assert s[k] in multiset(s);
        }
      }
    }
  }

  /**
   * Zipping tags each document with its index, in order, and keeps the
   * documents of the shorter list's length.
   */
  lemma ZipDocs(docs: seq<Chunk>, scores: seq<int>)
    ensures DocsOf(Zip(docs, scores)) == docs[..Min(|docs|, |scores|)]
    ensures forall i, j :: 0 <= i < j < |Zip(docs, scores)| ==> Zip(docs, scores)[i].pos < Zip(docs, scores)[j].pos
  {
    var z := Zip(docs, scores);
    assert forall k :: 0 <= k < |z| ==> DocsOf(z)[k] == docs[k];
  }

  lemma DocsOfCons(x: Scored, s: seq<Scored>)
    ensures DocsOf([x] + s) == [x.doc] + DocsOf(s)
  {
    assert forall k :: 0 <= k < |s| + 1 ==> DocsOf([x] + s)[k] == ([x.doc] + DocsOf(s))[k];
  }

  lemma {:induction false} DocsOfInsert(x: Scored, s: seq<Scored>)
    ensures multiset(DocsOf(Insert(x, s))) == multiset(DocsOf(s)) + multiset{x.doc}
  {
    if s == [] {
      DocsOfCons(x, s);
    } else if Before(x, s[0]) {
      DocsOfCons(x, s);
    } else {
      var t := s[1..];
      var i := Insert(x, t);
      assert Insert(x, s) == [s[0]] + i;
      assert s == [s[0]] + t;
      calc {
        multiset(DocsOf(Insert(x, s)));
      == { DocsOfCons(s[0], i); }
        multiset([s[0].doc] + DocsOf(i));
      == { DocsOfInsert(x, t); }
        multiset([s[0].doc]) + multiset(DocsOf(t)) + multiset{x.doc};
      == { DocsOfCons(s[0], t); }
        multiset(DocsOf(s)) + multiset{x.doc};
      }
    }
  }

  lemma DocsOfSnoc(s: seq<Scored>, x: Scored)
    ensures DocsOf(s + [x]) == DocsOf(s) + [x.doc]
  {
    assert forall k :: 0 <= k < |s| + 1 ==> DocsOf(s + [x])[k] == (DocsOf(s) + [x.doc])[k];
  }

  /** Sorting permutes the documents. */
  lemma {:induction false} DocsOfSort(s: seq<Scored>)
    ensures multiset(DocsOf(SortByScore(s))) == multiset(DocsOf(s))
  {
    if s != [] {
      var p := s[..|s| - 1];
      var x := s[|s| - 1];
      var q := SortByScore(p);
      assert SortByScore(s) == Insert(x, q);
      assert s == p + [x];
      calc {
        multiset(DocsOf(SortByScore(s)));
      == { DocsOfInsert(x, q); }
        multiset(DocsOf(q)) + multiset{x.doc};
      == { DocsOfSort(p); }
        multiset(DocsOf(p)) + multiset{x.doc};
      == { DocsOfSnoc(p, x); }
        multiset(DocsOf(s));
      }
    }
  }

  /**
   * With one score per pair, as the cross-encoder gives, the re-ranker
   * returns exactly `min(top_k, 20, len)` documents, and with `top_k` at
   * least the number of candidates it returns all of the first twenty,
   * re-ordered.
   */
  lemma RerankCount(query: string, documents: seq<Chunk>, topK: nat, predict: seq<(string, string)> -> seq<int>)
    requires |predict(ScoringPairs(query, Take(documents, MaxCandidates)))| == |Take(documents, MaxCandidates)|
    ensures |RerankResult(query, documents, topK, predict)| == Min(topK, Min(MaxCandidates, |documents|))
    ensures topK >= Min(MaxCandidates, |documents|) ==>
              multiset(RerankResult(query, documents, topK, predict)) == multiset(Take(documents, MaxCandidates))
  {
    if documents != [] {
      var docs := Take(documents, MaxCandidates);
      var z := Zip(docs, predict(ScoringPairs(query, docs)));
      var s := RankedCandidates(query, documents, predict);
      assert |s| == |z| == |docs| by {
        assert |s| == |multiset(s)| == |multiset(z)| == |z|;
      }
      if topK >= |docs| {
        assert Take(s, topK) == s;
        DocsOfSort(z);
        ZipDocs(docs, predict(ScoringPairs(query, docs)));
        assert docs[..|docs|] == docs;
      }
    }
  }

  /** The re-ranker never returns a text twice when the inputs are distinct. */
  lemma RerankDistinct(query: string, documents: seq<Chunk>, topK: nat, predict: seq<(string, string)> -> seq<int>)
    requires NoDuplicates(documents)
    ensures NoDuplicates(RerankResult(query, documents, topK, predict))
  {
    if documents != [] {
      var docs := Take(documents, MaxCandidates);
      var z := Zip(docs, predict(ScoringPairs(query, docs)));
      var s := RankedCandidates(query, documents, predict);
      SortByScoreRanked(z);
      var r := RerankResult(query, documents, topK, predict);
      forall i, j | 0 <= i < j < |r| ensures r[i] != r[j] {
        assert Before(s[i], s[j]);
        assert s[i] in multiset(z) by { assert s[i] in multiset(s); }
        assert s[j] in multiset(z) by { assert s[j] in multiset(s); }
        var a :| 0 <= a < |z| && z[a] == s[i];
        var b :| 0 <= b < |z| && z[b] == s[j];
        assert a != b;
        assert r[i] == docs[a] && r[j] == docs[b];
      }
    }
  }

  /** The re-ranker hands back an empty input unchanged. */
  lemma RerankEmpty(query: string, topK: nat, predict: seq<(string, string)> -> seq<int>)
    ensures RerankResult(query, [], topK, predict) == []
  {
  }

  // ---------------------------------------------------------------------
  // Long-context reorder
  // ---------------------------------------------------------------------

  /** `_apply_long_context_reorder`: most relevant first, second most relevant last. */
  function LongContextReorder(d: seq<Chunk>): (r: seq<Chunk>)
    ensures |r| == |d| && multiset(r) == multiset(d)
    ensures |d| <= 2 ==> r == d
    ensures |d| > 2 ==> r[0] == d[0] && r[|r| - 1] == d[1] && r[1..|r| - 1] == d[2..]
  {
    if |d| <= 2 then d
    else
      assert d == [d[0], d[1]] + d[2..];
      [d[0]] + d[2..] + [d[1]]
  }

  // ---------------------------------------------------------------------
  // process_rag_advanced
  // ---------------------------------------------------------------------

  /** The queries searched: the expansion of the question, or the question alone. */
  function SearchQueries(query: string, enableQueryExpansion: bool, llm: string -> string): seq<string> {
    if enableQueryExpansion then ExpandedQueries(query, llm(ExpansionPrompt(query))) else [query]
  }

  /** The retriever's answer (k = 12) for each query, in query order. */
  function Retrievals(queries: seq<string>, vectorSearch: (string, nat) -> seq<Chunk>): (r: seq<seq<Chunk>>)
    ensures |r| == |queries| && forall k :: 0 <= k < |queries| ==> r[k] == vectorSearch(queries[k], RetrieverK)
  {
    seq(|queries|, k requires 0 <= k < |queries| => vectorSearch(queries[k], RetrieverK))
  }

  /** `all_retrieved_docs`: every query's hits, each text once, in first-seen order. */
  function Candidates(queries: seq<string>, vectorSearch: (string, nat) -> seq<Chunk>): seq<Chunk> {
    Dedup(Concat(Retrievals(queries, vectorSearch)))
  }

  method MultiQueryRetrieve(queries: seq<string>, vectorSearch: (string, nat) -> seq<Chunk>)
    returns (allRetrievedDocs: seq<Chunk>)
    ensures allRetrievedDocs == Candidates(queries, vectorSearch)
  {
    var parts := Retrievals(queries, vectorSearch);
    allRetrievedDocs := [];
    var seenContent: set<Chunk> := {};
    for i := 0 to |queries|
      invariant allRetrievedDocs == Dedup(Concat(parts[..i]))
      invariant forall x :: x in seenContent <==> x in allRetrievedDocs
    {
      assert parts[..i + 1][..i] == parts[..i];
      var docs := vectorSearch(queries[i], RetrieverK);
      allRetrievedDocs, seenContent := AppendUnseen(Concat(parts[..i]), allRetrievedDocs, seenContent, docs);
    }
    assert parts[..|queries|] == parts;
  }

  /** The candidates hold no text twice, and exactly the texts some query retrieved. */
  lemma CandidatesProperties(queries: seq<string>, vectorSearch: (string, nat) -> seq<Chunk>)
    ensures var c := Candidates(queries, vectorSearch);
            && NoDuplicates(c)
            && forall x :: x in c <==> exists k :: 0 <= k < |queries| && x in vectorSearch(queries[k], RetrieverK)
  {
    var parts := Retrievals(queries, vectorSearch);
    forall x ensures x in Concat(parts) <==> exists k :: 0 <= k < |queries| && x in vectorSearch(queries[k], RetrieverK) {
      if x in Concat(parts) {
        var k :| 0 <= k < |parts| && x in parts[k];
        assert x in vectorSearch(queries[k], RetrieverK);
      }
      if exists k :: 0 <= k < |queries| && x in vectorSearch(queries[k], RetrieverK) {
        var k :| 0 <= k < |queries| && x in vectorSearch(queries[k], RetrieverK);
        assert x in parts[k];
      }
    }
  }

  predicate RerankingApplied(enableReranking: bool, candidates: seq<Chunk>) {
    enableReranking && |candidates| > 3
  }

  /** `reranked_docs`: the re-ranker's top four, or simply the first four. */
  function SelectFinal(query: string, candidates: seq<Chunk>, enableReranking: bool,
                       predict: seq<(string, string)> -> seq<int>): seq<Chunk> {
    if RerankingApplied(enableReranking, candidates) then RerankResult(query, candidates, FinalTopK, predict)
    else Take(candidates, FinalTopK)
  }

  /** The selection keeps at most four candidates, none twice. */
  lemma SelectFinalDistinct(query: string, candidates: seq<Chunk>, enableReranking: bool,
                            predict: seq<(string, string)> -> seq<int>)
    requires NoDuplicates(candidates)
    ensures var s := SelectFinal(query, candidates, enableReranking, predict);
            && |s| <= FinalTopK
            && NoDuplicates(s)
            && forall x :: x in s ==> x in candidates
  {
    var s := SelectFinal(query, candidates, enableReranking, predict);
    if RerankingApplied(enableReranking, candidates) {
      RerankBounds(query, candidates, FinalTopK, predict);
      RerankDistinct(query, candidates, FinalTopK, predict);
      forall x | x in s ensures x in candidates {
        var k :| 0 <= k < |s| && s[k] == x;
      }
    } else {
      assert s == candidates[..|s|];
      assert forall i, j :: 0 <= i < j < |s| ==> s[i] == candidates[i] && s[j] == candidates[j];
    }
  }

  /** The reorder keeps a list's length, its members and its distinctness. */
  lemma ReorderKeepsDistinct(s: seq<Chunk>)
    requires NoDuplicates(s)
    ensures var r := LongContextReorder(s);
            |r| == |s| && NoDuplicates(r) && forall x :: x in r <==> x in s
  {
    var r := LongContextReorder(s);
    PermutationKeepsDistinct(s, r);
    forall x ensures x in r <==> x in s {
      assert x in r <==> x in multiset(r);
      assert x in s <==> x in multiset(s);
    }
  }

  /**
   * At most four chunks reach the context, all among the candidates and
   * none twice.
   */
  lemma SelectFinalBounds(query: string, candidates: seq<Chunk>, enableReranking: bool,
                          predict: seq<(string, string)> -> seq<int>)
    requires NoDuplicates(candidates)
    ensures var r := LongContextReorder(SelectFinal(query, candidates, enableReranking, predict));
            && |r| <= FinalTopK
            && NoDuplicates(r)
            && forall x :: x in r ==> x in candidates
  {
    SelectFinalDistinct(query, candidates, enableReranking, predict);
    ReorderKeepsDistinct(SelectFinal(query, candidates, enableReranking, predict));
  }

  /** `final_chunks_preview`: the first 80 characters of the first two chunks, each marked as cut. */
  function ChunkPreviews(finalDocs: seq<Chunk>): (r: seq<string>)
    ensures |r| == Min(2, |finalDocs|)
    ensures forall k :: 0 <= k < |r| ==> r[k] == Take(finalDocs[k], 80) + "..."
  {
    var firstTwo := Take(finalDocs, 2);
    seq(|firstTwo|, k requires 0 <= k < |firstTwo| => Take(firstTwo[k], 80) + "...")
  }

  /**
   * Each preview is a prefix of its chunk of at most 80 characters followed
   * by `...`; a chunk of at most 80 characters is shown whole, a longer one by its first 80.
   */
  lemma ChunkPreviewsArePrefixes(finalDocs: seq<Chunk>, k: nat)
    requires k < |ChunkPreviews(finalDocs)|
    ensures var p := ChunkPreviews(finalDocs)[k];
            && 3 <= |p| <= 83
            && p[|p| - 3..] == "..."
            && p[..|p| - 3] <= finalDocs[k]
            && (|finalDocs[k]| <= 80 ==> p == finalDocs[k] + "...")
            && (|finalDocs[k]| > 80 ==> p == finalDocs[k][..80] + "...")
  {
    var p := ChunkPreviews(finalDocs)[k];
    var t := Take(finalDocs[k], 80);
    assert p == t + "...";
    assert p[..|p| - 3] == t;
    assert p[|p| - 3..] == "...";
  }

  function AdvancedPrompt(context: string, question: string): string {
    "以下の製品取扱説明書を参考にして、質問に答えてください。\n\n"
    + "=== 製品取扱説明書 ===\n" + context + "\n\n"
    + "=== 質問 ===\n" + question + "\n\n"
    + "=== 回答 ===\n" + "取扱説明書の内容に基づいて、正確な情報を提供してください。"
  }

  /** The `advanced_rag_stats` dictionary. */
  datatype AdvancedStats = AdvancedStats(
    originalQuery: string,
    expandedQueries: seq<string>,
    initialCandidates: nat,
    finalChunks: nat,
    rerankingApplied: bool,
    queryExpansionApplied: bool,
    contextReorderingApplied: bool,
    optimizationMode: string)

  datatype AdvancedOutput = AdvancedOutput(response: string, steps: seq<TraceStep>, actualPrompt: string, stats: AdvancedStats)

  /** The names of the eight trace records, which depend on the two switches. */
  function AdvancedStepNames(expanded: bool, reranked: bool): seq<string> {
    ["initialize", "setup_vectorstore",
     if expanded then "query_expansion" else "query_expansion_skipped",
     "multi_query_retrieval",
     if reranked then "reranking" else "reranking_skipped",
     "context_compression", "generate", "complete"]
  }

  /** Eight records with the right names in order make a trace with those names. */
  lemma AdvancedTraceNames(s0: TraceStep, s1: TraceStep, s2: TraceStep, s3: TraceStep,
                           s4: TraceStep, s5: TraceStep, s6: TraceStep, s7: TraceStep,
                           expanded: bool, reranked: bool)
    requires s0.step == "initialize" && s1.step == "setup_vectorstore"
    requires s2.step == (if expanded then "query_expansion" else "query_expansion_skipped")
    requires s3.step == "multi_query_retrieval"
    requires s4.step == (if reranked then "reranking" else "reranking_skipped")
    requires s5.step == "context_compression" && s6.step == "generate" && s7.step == "complete"
    ensures StepNames([s0, s1, s2, s3, s4, s5, s6, s7]) == AdvancedStepNames(expanded, reranked)
  {
    StepNamesAre([s0, s1, s2, s3, s4, s5, s6, s7], AdvancedStepNames(expanded, reranked));
  }

  /** The trace list of `process_rag_advanced`, built from its eight records in order. */
  method AssembleTrace(s0: TraceStep, s1: TraceStep, s2: TraceStep, s3: TraceStep,
                       s4: TraceStep, s5: TraceStep, s6: TraceStep, s7: TraceStep,
                       expanded: bool, reranked: bool)
    returns (steps: seq<TraceStep>)
    requires s0.step == "initialize" && s1.step == "setup_vectorstore"
    requires s2.step == (if expanded then "query_expansion" else "query_expansion_skipped")
    requires s3.step == "multi_query_retrieval"
    requires s4.step == (if reranked then "reranking" else "reranking_skipped")
    requires s5.step == "context_compression" && s6.step == "generate" && s7.step == "complete"
    ensures StepNames(steps) == AdvancedStepNames(expanded, reranked)
    ensures |steps| == 8 && steps[2] == s2 && steps[3] == s3 && steps[4] == s4 && steps[5] == s5 && steps[6] == s6
  {
    steps := [s0, s1, s2, s3, s4, s5, s6, s7];
    AdvancedTraceNames(s0, s1, s2, s3, s4, s5, s6, s7, expanded, reranked);
  }

  /** The trace record of the expansion switch. */
  method ExpansionStep(query: string, enableQueryExpansion: bool, llm: string -> string)
    returns (queries: seq<string>, step: TraceStep)
    ensures queries == SearchQueries(query, enableQueryExpansion, llm)
    ensures step.step == (if enableQueryExpansion then "query_expansion" else "query_expansion_skipped")
    ensures step.extra == if enableQueryExpansion then map["expanded_queries" := DStrs(queries)] else map[]
  {
    if enableQueryExpansion {
      queries := GenerateQueries(query, llm);
      step := TraceStep("query_expansion", "クエリを" + NatToString(|queries|) + "個に拡張（最適化）", map[],
                        map["expanded_queries" := DStrs(queries)]);
    } else {
      queries := [query];
      step := Step("query_expansion_skipped", "クエリ拡張をスキップ（高速モード）");
    }
  }

  /**
   * The description of the re-ranking record: how many candidates were
   * re-ranked into how many, or how many were kept without re-ranking.
   */
  function RerankDescription(applied: bool, candidateCount: nat, selected: nat): string {
    if applied then "CrossEncoderで" + NatToString(candidateCount) + "個から上位" + NatToString(selected) + "個を厳選（高度RAG）"
    else "再ランキングをスキップ、上位" + NatToString(selected) + "個を選択（高速モード）"
  }

  /** The re-ranking gate and its trace record. */
  method RerankStep(query: string, candidates: seq<Chunk>, enableReranking: bool,
                    predict: seq<(string, string)> -> seq<int>)
    returns (reranked: seq<Chunk>, step: TraceStep)
    ensures reranked == SelectFinal(query, candidates, enableReranking, predict)
    ensures step.step == (if RerankingApplied(enableReranking, candidates) then "reranking" else "reranking_skipped")
    ensures step.description == RerankDescription(RerankingApplied(enableReranking, candidates), |candidates|, |reranked|)
  {
    if enableReranking && |candidates| > 3 {
      reranked := Rerank(query, candidates, FinalTopK, predict);
      step := Step("reranking", RerankDescription(true, |candidates|, |reranked|));
    } else {
      reranked := Take(candidates, FinalTopK);
      step := Step("reranking_skipped", RerankDescription(false, |candidates|, |reranked|));
    }
  }

  // The fixed trace records of `process_rag_advanced`

  const InitializeRecord: TraceStep := Step("initialize", "最適化された高度なRAGエンジンを初期化")

  function SetupVectorstoreStep(chunkCount: nat): (r: TraceStep)
    ensures r.step == "setup_vectorstore"
  {
    Step("setup_vectorstore", "ドキュメントを" + NatToString(chunkCount) + "個のチャンクに分割し、ベクトルストアを構築")
  }

  /** The description of the retrieval record, for `candidateCount` candidates. */
  function RetrievalDescription(candidateCount: nat): string {
    "検索で" + NatToString(candidateCount) + "個の候補ドキュメントを取得"
  }

  const CompleteRecord: TraceStep := Step("complete", "最適化された高度なRAG処理完了")

  /** The context-compression and generation records, and the prompt they lead to. */
  method ContextSteps(query: string, rerankedDocs: seq<Chunk>, queriesUsed: nat)
    returns (compressionStep: TraceStep, generateStep: TraceStep, message: string, finalDocs: seq<Chunk>)
    ensures finalDocs == LongContextReorder(rerankedDocs)
    ensures compressionStep.step == "context_compression"
    ensures compressionStep.extra == map["final_chunks_preview" := DStrs(ChunkPreviews(finalDocs))]
    ensures generateStep.step == "generate"
    ensures generateStep.extra == map["context_stats" := DMap(map["total_chunks" := DInt(|finalDocs|),
                                                                  "total_characters" := DInt(|Join("\n\n", finalDocs)|),
                                                                  "expansion_queries_used" := DInt(queriesUsed)])]
    ensures message == AdvancedPrompt(Join("\n\n", finalDocs), query)
  {
    finalDocs := LongContextReorder(rerankedDocs);
    var context := Join("\n\n", finalDocs);
    compressionStep := TraceStep("context_compression", "最適配置で最終的に" + NatToString(|finalDocs|) + "個のチャンクを使用",
                                 map[], map["final_chunks_preview" := DStrs(ChunkPreviews(finalDocs))]);
    generateStep := TraceStep("generate", "最適化されたRAGパイプラインで回答を生成", map[],
                              map["context_stats" := DMap(map["total_chunks" := DInt(|finalDocs|),
                                                              "total_characters" := DInt(|context|),
                                                              "expansion_queries_used" := DInt(queriesUsed)])]);
    message := AdvancedPrompt(context, query);
  }

  /** Query expansion, multi-query retrieval and re-ranking, with their three trace records. */
  method RetrieveAndRerank(query: string, enableQueryExpansion: bool, enableReranking: bool,
                           vectorSearch: (string, nat) -> seq<Chunk>, llm: string -> string,
                           predict: seq<(string, string)> -> seq<int>)
    returns (queries: seq<string>, candidates: seq<Chunk>, reranked: seq<Chunk>,
             expansionStep: TraceStep, retrievalStep: TraceStep, rerankStep: TraceStep)
    ensures queries == SearchQueries(query, enableQueryExpansion, llm)
    ensures candidates == Candidates(queries, vectorSearch)
    ensures reranked == SelectFinal(query, candidates, enableReranking, predict)
    ensures expansionStep.step == (if enableQueryExpansion then "query_expansion" else "query_expansion_skipped")
    ensures expansionStep.extra == if enableQueryExpansion then map["expanded_queries" := DStrs(queries)] else map[]
    ensures retrievalStep == Step("multi_query_retrieval", RetrievalDescription(|candidates|))
    ensures rerankStep.step == (if RerankingApplied(enableReranking, candidates) then "reranking" else "reranking_skipped")
    ensures rerankStep.description == RerankDescription(RerankingApplied(enableReranking, candidates), |candidates|, |reranked|)
  {
    queries, expansionStep := ExpansionStep(query, enableQueryExpansion, llm);
    candidates := MultiQueryRetrieve(queries, vectorSearch);
    retrievalStep := Step("multi_query_retrieval", RetrievalDescription(|candidates|));
    reranked, rerankStep := RerankStep(query, candidates, enableReranking, predict);
  }

  /**
   * `process_rag_advanced` once the knowledge file has been split into
   * `splits`: `vectorSearch(q, k)` stands for the FAISS retriever, `llm` for
   * the chat model given the message text, `predict` for the cross-encoder.
   */
  method ProcessRagAdvanced(query: string, splits: seq<Chunk>, enableQueryExpansion: bool, enableReranking: bool,
                            vectorSearch: (string, nat) -> seq<Chunk>, llm: string -> string,
                            predict: seq<(string, string)> -> seq<int>)
    returns (out: AdvancedOutput)
    ensures var queries := SearchQueries(query, enableQueryExpansion, llm);
            var candidates := Candidates(queries, vectorSearch);
            var selected := SelectFinal(query, candidates, enableReranking, predict);
            var finalDocs := LongContextReorder(selected);
            var context := Join("\n\n", finalDocs);
            && StepNames(out.steps) == AdvancedStepNames(enableQueryExpansion, RerankingApplied(enableReranking, candidates))
            && out.steps[2].extra == (if enableQueryExpansion then map["expanded_queries" := DStrs(queries)] else map[])
            && out.steps[3].description == RetrievalDescription(|candidates|)
            && out.steps[4].description == RerankDescription(RerankingApplied(enableReranking, candidates), |candidates|, |selected|)
            && out.steps[5].extra == map["final_chunks_preview" := DStrs(ChunkPreviews(finalDocs))]
            && out.steps[6].extra == map["context_stats" := DMap(map["total_chunks" := DInt(|finalDocs|),
                                                                       "total_characters" := DInt(|context|),
                                                                       "expansion_queries_used" := DInt(|queries|)])]
            && out.actualPrompt == ChatFormat(AdvancedPrompt(context, query))
            && out.response == llm(AdvancedPrompt(context, query))
            && out.stats == AdvancedStats(query, queries, |candidates|, |finalDocs|,
                                          RerankingApplied(enableReranking, candidates),
                                          enableQueryExpansion, true, "high_performance")
  {
    var initStep := InitializeRecord;
    var setupStep := SetupVectorstoreStep(|splits|);
    var expandedQueries, allRetrievedDocs, rerankedDocs, expansionStep, retrievalStep, rerankStep :=
      RetrieveAndRerank(query, enableQueryExpansion, enableReranking, vectorSearch, llm, predict);
    var compressionStep, generateStep, message, finalDocs := ContextSteps(query, rerankedDocs, |expandedQueries|);
    var finalPrompt := ChatFormat(message);
    var response := llm(message);
    var completeStep := CompleteRecord;
    var steps := AssembleTrace(initStep, setupStep, expansionStep, retrievalStep, rerankStep, compressionStep, generateStep,
                               completeStep, enableQueryExpansion, RerankingApplied(enableReranking, allRetrievedDocs));
    var stats := AdvancedStats(query, expandedQueries, |allRetrievedDocs|, |finalDocs|,
                               enableReranking && |allRetrievedDocs| > 3, enableQueryExpansion, true, "high_performance");
    out := AdvancedOutput(response, steps, finalPrompt, stats);
  }
}
