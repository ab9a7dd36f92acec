# A model of rag-sample-codes' five grounding strategies

rag-sample-codes answers questions about an industrial robot's manual. It has
five execution modes:

- the model alone;
- the whole manual pasted into the prompt ("prompt stuffing");
- retrieval-augmented generation (RAG) over the manual's chunks;
- the model calling a line-grep tool (`search_manual`);
- an agent with a knowledge-base search tool and a serial-number tool.

The back end also has two stand-alone pipelines:

- a hybrid search that merges vector hits with keyword hits;
- an "advanced" RAG pipeline that expands the query, retrieves for each
  expansion, reranks with a cross-encoder and reorders for long contexts.

Every mode returns its answer and a trace of `intermediate_steps`.

This project models that core in Dafny:

| file | module | what it holds |
|---|---|---|
| `wrappers.dfy` | `Wrappers` | `Option`, `Result`, and collecting the `Some` values of a list |
| `text.dfy` | `Text` | the Python string operations the core relies on: `strip`, `split`, `join`, `lower`, `str.split()`, `\d+`, `str(n)` |
| `chunks.dfy` | `Chunks` | chunks and the first-seen de-duplication the pipelines use |
| `trace.dfy` | `Trace` | trace records |
| `chat.dfy` | `Chat` | the chat model: a `ChatModel` object that records every message sent to it |
| `tools.dfy` | `Tools` | `search_manual`, the tool-answer prompt, `str` of tool arguments, the result text of `search_knowledge_base`, `get_robot_serial_number` |
| `hybrid_retrieval.dfy` | `HybridRetrieval` | `_hybrid_retrieval` and `process_rag_only` |
| `advanced_rag.dfy` | `AdvancedRag` | query expansion, reranking, reordering and `process_rag_advanced` |
| `engines.dfy` | `Engines` | `ExecutionMode`, the engine factory and the five engines, with the two stateful engines as classes |
| `fc_only.dfy` | `FunctionCallingOnly` | the back end's stand-alone function-calling mode |
| `fancall.dfy` | `RagPlusFancall` | the RAG-plus-tools script, with its global retriever as a class |
| `script.dfy` | `FunctionCallingConsole` | the console function-calling script |

Step-by-step code is modelled with methods, each proved against a
specification function:

- the line filter;
- the keyword scan and the merge loop;
- the multi-query loop;
- the reranking loop;
- the trace-building bodies.

State the source changes in place is modelled with classes:

- the engines' lazily built retriever, chain and agent;
- the script's global retriever;
- the chat model's received messages.

The properties of the specification functions are proved as lemmas.

## Model

| member | source | states |
|---|---|---|
| Wrappers.SomesSound | src/backend/run_rag_advanced.py:51-55 | every collected value comes from some `Some` element of the list |
| Wrappers.SomesComplete | src/backend/run_rag_advanced.py:51-55 | every `Some` element of the list is collected |
| Text.LeadingSpaceSpec | src/backend/rag_engines.py:329 | the counted prefix is all whitespace, and the character after it is not whitespace |
| Text.TrailingSpaceSpec | src/backend/rag_engines.py:329 | the counted suffix is all whitespace, and the character before it is not whitespace |
| Text.StripSpec | src/backend/rag_engines.py:329 | `strip()` yields an infix of the text; only whitespace precedes or follows it; it neither starts nor ends with whitespace |
| Text.StripOfTrimmed | src/backend/run_rag_advanced.py:52 | stripping text that has no whitespace at either end changes nothing |
| Text.StripNonEmpty | src/backend/run_rag_advanced.py:52 | a text that ends in a non-space does not strip to nothing |
| Text.StripIdempotent | src/backend/run_rag_advanced.py:50-55 | stripping twice is stripping once |
| Text.LeadingSpaceAfter | src/backend/run_rag_advanced.py:52 | a whitespace prefix adds exactly its length to the leading whitespace |
| Text.StripAfterSpace | src/backend/run_rag_advanced.py:52 | stripping leading whitespace off a trimmed body gives the body |
| Text.Split | src/backend/rag_engines.py:324 | `split` always gives at least one piece |
| Text.SplitPiecesFree | src/backend/rag_engines.py:324 | no piece of a split holds the separator |
| Text.JoinSplit | src/backend/rag_engines.py:324 | joining the pieces with the separator restores the text |
| Text.SplitWithoutSeparator | src/backend/rag_engines.py:324 | a prefix without the separator joins the first piece of the rest and adds no piece |
| Text.SplitJoin | src/backend/rag_engines.py:332 | joining pieces that lack the separator and splitting again gives the pieces back |
| Text.JoinContains | src/backend/rag_engines.py:249 | the joined text contains every piece |
| Text.Take | src/backend/run_rag_only.py:77-78 | slicing to `n` keeps the first `min(n, len)` elements, in order |
| Text.Truncated | src/backend/rag_engines.py:389-390 | text of at most `n` characters is kept; longer text becomes its first `n` characters and `...` |
| Text.LowerProperties | src/backend/rag_engines.py:328 | `lower()` leaves no upper-case ASCII letter, turns each into its lower-case letter, leaves every other character alone, and is idempotent |
| Text.WordLengthSpec | src/backend/run_rag_only.py:53 | the first word is a run of non-whitespace that ends at whitespace or at the end of the text |
| Text.WordsAreTokens | src/backend/run_rag_only.py:53 | `str.split()` gives non-empty words that hold no whitespace |
| Text.DigitRun | src/backend/run_rag_advanced.py:52 | the leading `\d+` run is all digits, and what follows it is not a digit |
| Text.DigitRunAfter | src/backend/run_rag_advanced.py:52 | a prefix of digits adds exactly its length to the digit run |
| Text.NatToString | src/backend/run_rag_only.py:135 | `str(n)` of a count is a non-empty string of decimal digits |
| Text.NatToStringValue | src/backend/run_rag_only.py:135 | `str(n)` spells `n` in decimal, "0" for zero and no leading zero otherwise |
| Chunks.Dedup | src/backend/run_rag_only.py:61-74 | the first-seen de-duplication keeps no duplicate, has exactly the input's members and is no longer than the input |
| Chunks.DedupKeepsFirstSeenOrder | src/backend/run_rag_only.py:61-74 | two kept chunks appear in the order of their first occurrences |
| Chunks.DedupOfDistinct | src/backend/run_rag_only.py:65-68 | a list without duplicates passes unchanged |
| Chunks.DedupConcat | src/backend/run_rag_only.py:61-74 | de-duplicating two lists keeps the first list's de-duplication as its prefix and adds only chunks of the second list not in the first |
| Chunks.PermutationKeepsDistinct | src/backend/run_rag_advanced.py:90-105 | a permutation of a duplicate-free list is duplicate-free |
| Chunks.DedupStep | src/backend/run_rag_only.py:71-74 | one more chunk is appended exactly when it has not been seen |
| Chunks.AppendUnseen | src/backend/run_rag_only.py:71-74 | the merge loop with its `seen_content` set appends exactly the de-duplication of what it has read, and `seen` stays the set of appended chunks |
| Chunks.Concat | src/backend/run_rag_advanced.py:171-180 | the concatenation has exactly the members of the parts |
| Chat.ChatFormat | src/backend/run_rag_only.py:163 | the text a chat prompt renders to has the human prefix, then exactly the message |
| Chat.ChatModel.Invoke | src/backend/rag_engines.py:98 | the reply is the model's answer to the input, and the input is appended to what the model has received |
| Tools.RelevantLines | run_function_calling_only.py:25-30 | each input line contributes at most one output line |
| Tools.RelevantLinesSound | run_function_calling_only.py:25-30 | every output line is the stripped form of an input line that contains the query, ignoring case |
| Tools.RelevantLinesComplete | run_function_calling_only.py:25-30 | every input line that contains the query, ignoring case, appears stripped in the output |
| Tools.SearchManual | src/backend/rag_engines.py:321-334 | the loop computes the tool's answer: the matching stripped lines joined by newlines, or the not-found message |
| Tools.RelevantLinesIgnoreQueryCase | src/backend/run_function_calling_only.py:42 | queries that lower-case alike select the same lines |
| Tools.SearchManualLines | src/backend/run_function_calling_only.py:38-48 | nothing is found exactly when no line matches, and then the not-found message is returned; otherwise the answer splits back into exactly the stripped matching lines |
| Tools.ToolAnswerPromptEmbeds | src/backend/rag_engines.py:398-405 | the second prompt holds the user's question and the whole tool output |
| Tools.PyReprPlain | src/backend/run_function_calling_only.py:96-108 | `str` of a plain query argument is that query in single quotes |
| Tools.FormatSearchResult | src/backend/rag_engines.py:462-476 | the result starts with the header exactly when documents were found, and is then the header followed by the documents joined by blank lines; no documents give the not-found message; every document's text is in the result |
| Tools.GetRobotSerialNumber | src/backend/rag_engines.py:479-485 | the fixed serial number |
| HybridRetrieval.ErrorCodes | src/backend/run_rag_only.py:36 | every `E-\d+` match is an error code occurring in the query |
| HybridRetrieval.ErrorCodesFound | src/backend/run_rag_only.py:36-37 | no code is found exactly when no position of the query starts `E-` and a digit |
| HybridRetrieval.ErrorCodesSkip | src/backend/run_rag_only.py:36 | a stretch of the query where no match starts contributes nothing: the codes of `a + b` are those of `b` |
| HybridRetrieval.ErrorCodesMatch | src/backend/run_rag_only.py:36 | a match takes every digit after `E-`, is returned first, and the scan resumes right after it |
| HybridRetrieval.ChunksContainingAnyCounts | src/backend/run_rag_only.py:38-42 | the filter keeps every chunk that contains a term, as often as it occurs, and nothing else |
| HybridRetrieval.ChunksContainingAnyMembers | src/backend/run_rag_only.py:54-58 | a chunk is kept exactly when it is a split that contains one of the terms |
| HybridRetrieval.NoTermsNoHits | src/backend/run_rag_only.py:37 | with no error code in the query the rule adds nothing |
| HybridRetrieval.CollectMatching | src/backend/run_rag_only.py:54-58 | the nested scan with `break` appends each matching chunk once, in document order |
| HybridRetrieval.LongWordsMembers | src/backend/run_rag_only.py:53 | the query words kept are exactly the words longer than two characters |
| HybridRetrieval.KeywordSearch | src/backend/run_rag_only.py:33-58 | the keyword list is the error-code hits, then the maintenance hits, then the general-word hits |
| HybridRetrieval.KeywordRules | src/backend/run_rag_only.py:36-58 | what each of the three keyword rules selects, as an if-and-only-if |
| HybridRetrieval.HybridRetrieval | src/backend/run_rag_only.py:26-78 | `_hybrid_retrieval` returns the first five of the de-duplicated vector hits followed by the keyword hits |
| HybridRetrieval.HybridResultProperties | src/backend/run_rag_only.py:61-78 | the result has no duplicate and at most five chunks; vector hits come first and keep their order; any later chunk is a keyword hit and not a vector hit; every chunk is a hit of one kind |
| HybridRetrieval.SmallCorpusKeepsEveryHit | src/backend/run_rag_only.py:77-78 | with at most five splits nothing is cut: the result holds exactly the vector and keyword hits |
| HybridRetrieval.ProcessRagOnly | src/backend/run_rag_only.py:81-183 | the five trace names, the chunk and hit counts in the descriptions, the debug fields, the rendered prompt and the answer to the prompt over the hybrid hits with `k = min(5, len(splits))` |
| AdvancedRag.NumberedEntryTrimmed | src/backend/run_rag_advanced.py:52-55 | a parsed entry is non-empty and already stripped |
| AdvancedRag.NumberedEntryOfItem | src/backend/run_rag_advanced.py:52-55 | digits, a dot, whitespace and a trimmed body parse to that body |
| AdvancedRag.NumberedEntryNeedsDigit | src/backend/run_rag_advanced.py:53 | a line whose stripped form does not start with a digit gives no entry |
| AdvancedRag.ParsedEntriesSound | src/backend/run_rag_advanced.py:51-55 | every added query is the capture of some output line |
| AdvancedRag.ParsedEntriesComplete | src/backend/run_rag_advanced.py:51-55 | every output line that matches contributes its capture |
| AdvancedRag.ExpandedQueries | src/backend/run_rag_advanced.py:49-57 | between one and three queries; the original question first; then the first two parsed entries |
| AdvancedRag.GenerateQueries | src/backend/run_rag_advanced.py:38-57 | the loop computes the expanded queries from the model's answer to the expansion prompt |
| AdvancedRag.Insert | src/backend/run_rag_advanced.py:84-85 | inserting one scored document keeps every element |
| AdvancedRag.InsertRanked | src/backend/run_rag_advanced.py:84-85 | inserting into a ranked list keeps it ranked |
| AdvancedRag.SortByScore | src/backend/run_rag_advanced.py:84-85 | the sort is a permutation |
| AdvancedRag.SortByScoreRanked | src/backend/run_rag_advanced.py:84-85 | the sort is descending by score, and stable |
| AdvancedRag.ZipDocs | src/backend/run_rag_advanced.py:84 | `zip` keeps the documents in order, up to the shorter list's length, each tagged with a distinct increasing position |
| AdvancedRag.ScoringPairs | src/backend/run_rag_advanced.py:73-78 | one pair per candidate: the query, and the first 800 characters of the text |
| AdvancedRag.Rerank | src/backend/run_rag_advanced.py:60-87 | the loop computes the reranking: empty input as is; otherwise the top `top_k` of the first 20 candidates by cross-encoder score |
| AdvancedRag.RankedCandidatesOrder | src/backend/run_rag_advanced.py:69-85 | the ranked candidates are a permutation of the scored pairs, by descending score, ties in candidate order |
| AdvancedRag.RerankBounds | src/backend/run_rag_advanced.py:69-87 | at most `min(top_k, 20, len)` results, each among the first 20 candidates |
| AdvancedRag.DocsOfSort | src/backend/run_rag_advanced.py:84-87 | sorting by score permutes the documents |
| AdvancedRag.RerankCount | src/backend/run_rag_advanced.py:60-87 | with one score per pair, exactly `min(top_k, 20, len)` documents come back, and with `top_k` at least the number of candidates a permutation of the first 20 |
| AdvancedRag.RerankDistinct | src/backend/run_rag_advanced.py:60-87 | distinct candidates give distinct results |
| AdvancedRag.RerankEmpty | src/backend/run_rag_advanced.py:62-63 | no documents give no documents |
| AdvancedRag.LongContextReorder | src/backend/run_rag_advanced.py:90-105 | a permutation: up to two documents unchanged; otherwise the best first, the second-best last, the rest in between in order |
| AdvancedRag.MultiQueryRetrieve | src/backend/run_rag_advanced.py:168-180 | the loop computes the de-duplicated concatenation of the retrievals |
| AdvancedRag.CandidatesProperties | src/backend/run_rag_advanced.py:168-180 | the candidates are duplicate-free and are exactly the chunks some query retrieved |
| AdvancedRag.SelectFinalDistinct | src/backend/run_rag_advanced.py:192-208 | at most four chunks, distinct, all candidates |
| AdvancedRag.ReorderKeepsDistinct | src/backend/run_rag_advanced.py:214 | reordering keeps the length, the members and distinctness |
| AdvancedRag.SelectFinalBounds | src/backend/run_rag_advanced.py:192-214 | the final documents are at most four distinct candidates |
| AdvancedRag.ChunkPreviewsArePrefixes | src/backend/run_rag_advanced.py:214-222 | each preview is a prefix of its chunk of at most 80 characters, then `...`; a chunk of at most 80 characters is shown whole, a longer one by exactly its first 80 characters |
| AdvancedRag.AdvancedTraceNames | src/backend/run_rag_advanced.py:108-282 | eight records with the expected names make the trace the two switches call for |
| AdvancedRag.AssembleTrace | src/backend/run_rag_advanced.py:108-282 | the eight records in order form the trace whose names the two switches call for |
| AdvancedRag.ExpansionStep | src/backend/run_rag_advanced.py:151-165 | the queries searched, and the expansion record: its name, and the expanded queries it carries exactly when expansion is on |
| AdvancedRag.RerankStep | src/backend/run_rag_advanced.py:192-208 | reranking exactly when it is switched on and more than three candidates exist, otherwise the first four; the record's name says which, and its description gives the candidate and selected counts |
| AdvancedRag.RetrieveAndRerank | src/backend/run_rag_advanced.py:151-211 | the queries, the de-duplicated candidates of all of them and the final selection, with the expansion, retrieval and re-ranking records and the counts they describe |
| AdvancedRag.ContextSteps | src/backend/run_rag_advanced.py:214-254 | the reordered documents, the compression and generation records with their previews and context statistics, and the prompt over the joined documents |
| AdvancedRag.ProcessRagAdvanced | src/backend/run_rag_advanced.py:108-282 | the trace names for both switches, the expanded queries of the expansion record, the candidate count of the retrieval record, the counts of the re-ranking record, the preview and statistics records, the rendered prompt, the answer, and `advanced_rag_stats`; the descriptions of the other five records are not stated |
| Engines.ModeOfValue | src/backend/rag_engines.py:35-40 | a fact about the `ExecutionMode` enumeration itself (no caller in the core looks a mode up by value): a value that names a mode gives that mode, and any other value gives none |
| Engines.ModeValueRoundTrip | src/backend/rag_engines.py:35-40 | a fact about the `ExecutionMode` enumeration itself: looking up a mode's value gives the mode back |
| Engines.EngineTableTotal | src/backend/rag_engines.py:548-555 | the table maps every mode to the engine that implements it |
| Engines.CreateEngine | src/backend/rag_engines.py:546-560 | an engine exactly for a member of the enumeration, the one implementing that mode; otherwise the `Unknown execution mode` error; the callers in the core pass members only, so the error branch (a `ModeArg.NotAMember` argument) covers the function's own guard rather than a call site |
| Engines.CreateEngineBijective | src/backend/rag_engines.py:546-560 | different modes give different engines, and every engine is given for its mode |
| Engines.LlmOnlyProcess | src/backend/rag_engines.py:81-108 | the three trace names, no record data, and the model's answer to the bare query |
| Engines.StuffingPromptEmbeds | src/backend/rag_engines.py:141-150 | the prompt holds the whole manual, first and verbatim, and the query, plus a fixed amount of text |
| Engines.PromptStuffingProcess | src/backend/rag_engines.py:114-171 | the four trace names, the content and prompt lengths, and the answer to the stuffed prompt |
| Engines.RagEnginePromptHoldsHits | src/backend/rag_engines.py:238-249 | every retrieved chunk is in the chain's prompt |
| Engines.RagOnlyEngine.constructor | src/backend/rag_engines.py:177-180 | no retriever and no chain yet |
| Engines.RagOnlyEngine.SetupRag | src/backend/rag_engines.py:182-262 | a second setup does nothing; the first builds a `k = 3` retriever over the chunks and records the four setup steps with their data |
| Engines.RagOnlyEngine.Process | src/backend/rag_engines.py:264-297 | setup steps only on the first call, then retrieval over the engine's retriever, its record, and the answer to the chain's prompt |
| Engines.RagOnlyTwice | src/backend/rag_engines.py:264-297 | on the second query the trace holds only retrieval and completion, and the answer is over the same retriever |
| Engines.FunctionCallingProcess | src/backend/rag_engines.py:339-418 | the tool-decision record; without tool calls, the first reply and no second model call; with a call, the tool run and its truncated result, exactly one second model call with the tool prompt, and its answer |
| Engines.RagFunctionCallingEngine.constructor | src/backend/rag_engines.py:424-427 | no retriever and no agent yet |
| Engines.RagFunctionCallingEngine.SetupRagAgent | src/backend/rag_engines.py:429-510 | a second setup does nothing; the first builds the `k = 3` retriever and an agent with the two tools, and records the two setup steps with their data |
| Engines.RagFunctionCallingEngine.Process | src/backend/rag_engines.py:512-537 | setup steps only on the first call, then the agent run over the engine's agent and its output |
| Engines.RagFunctionCallingTwice | src/backend/rag_engines.py:462-537 | the second query does not rebuild the agent, and the agent's search tool answers from the engine's retriever |
| FunctionCallingOnly.SearchManualFile | src/backend/run_function_calling_only.py:18-48 | a missing file gives the path message, an existing one the line filter |
| FunctionCallingOnly.SearchManualFileCases | src/backend/run_function_calling_only.py:31-48 | the missing-file message; for an existing file, the not-found message or exactly the matching lines |
| FunctionCallingOnly.ProcessFunctionCallingOnly | src/backend/run_function_calling_only.py:51-173 | the numbered records of each of the three branches, the answer, `actual_prompt`, and that the plain model is called once only when `search_manual` is called |
| RagPlusFancall.ScriptGlobals.constructor | src/backend/run_rag_plus_fancall.py:20 | the global retriever starts unset |
| RagPlusFancall.ScriptGlobals.SetupRagRetriever | src/backend/run_rag_plus_fancall.py:23-44 | afterwards the global retriever searches the chunks with `k = 3`; the two progress lines |
| RagPlusFancall.ScriptGlobals.SearchKnowledgeBase | src/backend/run_rag_plus_fancall.py:48-69 | the error text exactly when the retriever is unset; otherwise the header and the hits, or the not-found message |
| RagPlusFancall.SerialNumberTool | src/backend/run_rag_plus_fancall.py:73-80 | the fixed serial number |
| RagPlusFancall.SearchBeforeAndAfterSetup | src/backend/run_rag_plus_fancall.py:20-69 | before the setup the tool reports the error; after it, the search over the chunks |
| FunctionCallingConsole.SearchManualOrRaise | run_function_calling_only.py:10-35 | a missing file raises; an existing one gives the line filter |
| FunctionCallingConsole.RunMain | run_function_calling_only.py:38-94 | the printed lines of each of the four outcomes (direct answer, unknown tool, missing file, tool answer), the exception, and which model calls are made |

## Left out

- Loading and splitting the manual (`TextLoader`, `RecursiveCharacterTextSplitter`) are left out: the chunks are given as `splits`, and each engine receives the knowledge text it reads.
- The FAISS index and the embeddings are left out. They are a search function given as a parameter (`vectorSearch`, or `search` over the index's chunks and `k`), and that function is taken to be deterministic. In the RAG engine, the chain's second retrieval is taken to give the same hits as the one recorded in the trace.
- The cross-encoder is a parameter `predict`. Its scores are integers here, not floats.
- Every model call is left out: it is a function parameter, or a `ChatModel` whose replies are given. A retry or a network failure is not modelled.
- The agent's reasoning loop is the parameter `runAgent`. Its two tools are modelled; which tool it calls, and when, is not.
- LangChain's validation of tool arguments is left out: a tool call is its name and its query string.
- Engines.CreateEngine: the argument is a member of the enumeration or any other value with its `str`. Python's enum identity and hashing are not modelled.
- Engines.FunctionCallingProcess: the steps' `timestamp` fields are left out.
- AdvancedRag.ProcessRagAdvanced: its contract states the descriptions of the retrieval and re-ranking records but not those of the other records, which are fixed texts or the query count; `AdvancedRag.ExpansionStep` and `AdvancedRag.ContextSteps` build them.
- Timestamps, `asyncio`, the demo-mode sleeps and the demo-mode printing are left out.
- The start-up failure when the LLM cannot be initialised (`BaseRAGEngine.__init__`) is left out. So are `main.py`, the environment and logging helpers, and the front end.
- In the `rag_engines.py` engines, a missing knowledge file raises. That case is left out there: those engines take the file's text.
- In the back end's function-calling mode, the knowledge file's path is a parameter, because it depends on where the program is installed.
- The load step's `document_count` is always 1, the one `TextLoader` document.
- `str.isspace` is modelled with Python's full set of whitespace characters. `\d` and `lower()` are modelled on ASCII only; other Unicode digits and letters are left out.
- Tools.PyReprPlain: only the quote choice and the escapes for backslash, the quote, `\n`, `\r` and `\t` are modelled. Python's `\xNN` and `\uNNNN` escapes for other non-printable characters are left out.
- Python's `list.sort` is modelled as a stable insertion sort by descending score.
- The scripts' `print` output is modelled as the list of printed arguments. Their `__main__` blocks and the RAG-plus-tools script's `main` are left out, the latter because it only wires the agent and prints its output.
- The source has an unknown tool in `src/backend/run_function_calling_only.py` number its error record 3, after the decision record 3, so that branch's step numbers are 1, 2, 3, 3. The model follows the code.
