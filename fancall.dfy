/**
 * The stand-alone RAG-plus-function-calling script: a module-level
 * retriever set once by `setup_rag_retriever`, and the two tools the agent
 * may call. The agent loop itself is not modelled.
 */
module RagPlusFancall {
  import opened Wrappers
  import opened Text
  import opened Chunks
  import opened Tools

  const UninitialisedError: string := "エラー: ナレッジベースが初期化されていません"

  /** The script's module-level state: the global `retriever`. */
  class ScriptGlobals {
    var retriever: Option<VectorIndex>

    /** Before `setup_rag_retriever` has run the retriever is `None`. */
    constructor ()
      ensures retriever == None
    {
      retriever := None;
    }

    /**
     * `setup_rag_retriever`, with `splits` the chunks of `knowledge.txt`:
     * afterwards the retriever is set, over those chunks, with three hits.
     * It returns the lines it prints.
     */
    method SetupRagRetriever(splits: seq<Chunk>) returns (printed: seq<string>)
      modifies this
      ensures retriever == Some(VectorIndex(splits, 3))
      ensures printed == ["   RAG Retrieverを準備中...", "   RAG準備完了（" + NatToString(|splits|) + "個のチャンク）"]
    {
      printed := ["   RAG Retrieverを準備中..."];
      retriever := Some(VectorIndex(splits, 3));
      printed := printed + ["   RAG準備完了（" + NatToString(|splits|) + "個のチャンク）"];
    }

    /**
     * `search_knowledge_base`. The error text comes back exactly when the
     * retriever is unset; otherwise the hits, in retrieval order, under the
     * header, or the not-found message when there are none.
     */
    function SearchKnowledgeBase(query: string, search: Search): (r: string)
      reads this
      ensures r == UninitialisedError <==> retriever.None?
      ensures retriever.Some? ==>
                var docs := search(retriever.value.chunks, query, retriever.value.k);
                && (docs != [] ==> r == SearchHeader + Join("\n\n", docs))
                && (docs == [] ==> r == NotFoundMessage(query))
    {
      if retriever.None? then UninitialisedError
      else
        var docs := search(retriever.value.chunks, query, retriever.value.k);
        var r := FormatSearchResult(query, docs);
        assert r != UninitialisedError by {
          if docs != [] {
            assert r[0] == SearchHeader[0];
          } else {
            assert r[0] == '\'';
          }
        }
        r
    }
  }

  /** `get_robot_serial_number` of this script. */
  function SerialNumberTool(): (r: string)
    ensures r == "AW3-2024-001255"
  {
    GetRobotSerialNumber()
  }

  /**
   * Calling the knowledge-base tool before the setup gives the error;
   * after it, the search over the given chunks.
   */
  method SearchBeforeAndAfterSetup(splits: seq<Chunk>, query: string, search: Search)
    returns (before: string, after: string)
    ensures before == UninitialisedError
    ensures after == FormatSearchResult(query, search(splits, query, 3))
    ensures after != UninitialisedError
  {
    var globals := new ScriptGlobals();
    before := globals.SearchKnowledgeBase(query, search);
    var _ := globals.SetupRagRetriever(splits);
    after := globals.SearchKnowledgeBase(query, search);
  }
}
