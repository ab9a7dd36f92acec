/**
 * Chunks of the knowledge document. A chunk is identified by its text
 * (`page_content`), so de-duplication compares text for equality.
 */
module Chunks {

  type Chunk = string

  /** A vector-store retriever: the chunks it indexes and the number `k` of hits it returns. */
  datatype VectorIndex = VectorIndex(chunks: seq<Chunk>, k: nat)

  /** A vector search: the hits among the indexed chunks for a query, at most `k` of them. */
  type Search = (seq<Chunk>, string, nat) -> seq<Chunk>

  predicate NoDuplicates<T(==)>(s: seq<T>) {
    forall i, j :: 0 <= i < j < |s| ==> s[i] != s[j]
  }

  /**
   * The `seen_content` idiom: keep each text the first time it is met, in
   * the order met, and skip it afterwards.
   */
  function Dedup(s: seq<Chunk>): (r: seq<Chunk>)
    ensures NoDuplicates(r)
    ensures forall x :: x in r <==> x in s
    ensures |r| <= |s|
  {
    if s == [] then []
    else
      var d := Dedup(s[..|s| - 1]);
      if s[|s| - 1] in d then d else d + [s[|s| - 1]]
  }

  /** Index of the first occurrence of `x` in `s`. */
  function FirstIndex(s: seq<Chunk>, x: Chunk): (i: nat)
    requires x in s
    ensures i < |s| && s[i] == x && x !in s[..i]
  {
    if s[0] == x then 0 else 1 + FirstIndex(s[1..], x)
  }

  lemma FirstIndexOfPrefix(s: seq<Chunk>, n: nat, x: Chunk)
    requires n <= |s| && x in s[..n]
    ensures FirstIndex(s, x) == FirstIndex(s[..n], x)
  {
    var i := FirstIndex(s[..n], x);
    var j := FirstIndex(s, x);
    assert s[..n][..i] == s[..i];
  }

  /** De-duplication keeps the order of first occurrences. */
  lemma {:induction false} DedupKeepsFirstSeenOrder(s: seq<Chunk>, i: nat, j: nat)
    requires i < j < |Dedup(s)|
    ensures Dedup(s)[i] in s && Dedup(s)[j] in s
    ensures FirstIndex(s, Dedup(s)[i]) < FirstIndex(s, Dedup(s)[j])
  {
    var n := |s| - 1;
    var p := s[..n];
    var d := Dedup(p);
    var x := s[n];
    if x in d {
      assert Dedup(s) == d;
      DedupKeepsFirstSeenOrder(p, i, j);
      FirstIndexOfPrefix(s, n, d[i]);
      FirstIndexOfPrefix(s, n, d[j]);
    } else {
      assert Dedup(s) == d + [x];
      assert x !in p;
      if j < |d| {
        DedupKeepsFirstSeenOrder(p, i, j);
        FirstIndexOfPrefix(s, n, d[i]);
        FirstIndexOfPrefix(s, n, d[j]);
      } else {
        assert Dedup(s)[j] == x;
        assert FirstIndex(s, x) == n by {
          assert s[..n] == p;
        }
        FirstIndexOfPrefix(s, n, d[i]);
      }
    }
  }

  /** A duplicate-free sequence is its own de-duplication. */
  lemma {:induction false} DedupOfDistinct(s: seq<Chunk>)
    requires NoDuplicates(s)
    ensures Dedup(s) == s
  {
    if s != [] {
      var p := s[..|s| - 1];
      assert NoDuplicates(p);
      DedupOfDistinct(p);
      assert s[|s| - 1] !in p;
      assert p + [s[|s| - 1]] == s;
    }
  }

  /**
   * De-duplicating `a + b` keeps the de-duplication of `a` as a prefix and
   * appends only elements of `b` that do not occur in `a`: what comes first
   * takes precedence and what comes later is never interleaved.
   */
  lemma {:induction false} DedupConcat(a: seq<Chunk>, b: seq<Chunk>)
    ensures |Dedup(a)| <= |Dedup(a + b)|
    ensures Dedup(a + b)[..|Dedup(a)|] == Dedup(a)
    ensures forall k :: |Dedup(a)| <= k < |Dedup(a + b)| ==> Dedup(a + b)[k] in b && Dedup(a + b)[k] !in a
  {
    if b == [] {
      assert a + b == a;
    } else {
      var b' := b[..|b| - 1];
      DedupConcat(a, b');
      assert (a + b)[..|a + b| - 1] == a + b';
      var d := Dedup(a + b');
      var x := b[|b| - 1];
      assert (a + b)[|a + b| - 1] == x;
      if x in d {
        assert Dedup(a + b) == d;
      } else {
        assert Dedup(a + b) == d + [x];
        assert x !in a;
      }
    }
  }

  lemma {:induction false} DistinctCountsOne(s: seq<Chunk>, x: Chunk)
    requires NoDuplicates(s)
    ensures multiset(s)[x] <= 1
  {
    if s != [] {
      assert s == [s[0]] + s[1..];
      assert NoDuplicates(s[1..]);
      DistinctCountsOne(s[1..], x);
      if s[0] == x {
        assert x !in s[1..];
      }
    }
  }

  /** A rearrangement of a duplicate-free sequence is duplicate-free. */
  lemma PermutationKeepsDistinct(s: seq<Chunk>, r: seq<Chunk>)
    requires NoDuplicates(s) && multiset(r) == multiset(s)
    ensures NoDuplicates(r)
  {
    forall i, j | 0 <= i < j < |r| ensures r[i] != r[j] {
      if r[i] == r[j] {
        assert r == r[..i] + [r[i]] + r[i + 1..j] + [r[j]] + r[j + 1..];
        assert multiset(r)[r[i]] >= 2;
        DistinctCountsOne(s, r[i]);
      }
    }
  }

  /** One more document: appended if its text is new, skipped otherwise. */
  lemma DedupStep(s: seq<Chunk>, x: Chunk)
    ensures Dedup(s + [x]) == if x in Dedup(s) then Dedup(s) else Dedup(s) + [x]
  {
    assert (s + [x])[..|s|] == s;
  }

  /**
   * The `seen_content` merge loop: append each document of `docs`
   * whose text has not been seen, and record it as seen.
   */
  method AppendUnseen(prefix: seq<Chunk>, combined: seq<Chunk>, seen: set<Chunk>, docs: seq<Chunk>)
    returns (combined': seq<Chunk>, seen': set<Chunk>)
    requires combined == Dedup(prefix)
    requires forall x :: x in seen <==> x in combined
    ensures combined' == Dedup(prefix + docs)
    ensures forall x :: x in seen' <==> x in combined'
  {
    combined', seen' := combined, seen;
    assert prefix + docs[..0] == prefix;
    for j := 0 to |docs|
      invariant combined' == Dedup(prefix + docs[..j])
      invariant forall x :: x in seen' <==> x in combined'
    {
      DedupStep(prefix + docs[..j], docs[j]);
      assert prefix + docs[..j + 1] == prefix + docs[..j] + [docs[j]];
      var doc := docs[j];
      if doc !in seen' {
        combined' := combined' + [doc];
        seen' := seen' + {doc};
      }
    }
    assert docs[..|docs|] == docs;
  }

  /** Concatenation of the result lists of several queries, in query order. */
  function Concat(parts: seq<seq<Chunk>>): (r: seq<Chunk>)
    ensures forall x :: x in r <==> exists k :: 0 <= k < |parts| && x in parts[k]
  {
    if parts == [] then []
    else
      var r := Concat(parts[..|parts| - 1]) + parts[|parts| - 1];
      assert forall k :: 0 <= k < |parts| - 1 ==> parts[..|parts| - 1][k] == parts[k];
      r
  }
}
