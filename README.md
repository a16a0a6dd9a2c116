# Invoice/PO question answering: a Dafny model of the decision logic

The system answers questions about invoices and purchase orders. A rule-based
planner reads the question. A retriever fetches invoices and POs from a document
store. A verifier scores an invoice against its PO. An orchestrator assembles a
templated answer. Every agent writes to an append-only JSONL audit log. This
project models the deterministic part of that pipeline in Dafny and proves what
each step promises. All collaborators are parameters, including the document
store, the similarity retrievers, the language-model analysis, the session uuid
and the plan steps of the HTTP handler.

Modules, one file each:

- `common.dfy`, module `Common`: `Option`, and `Reply`, which is a value or the
  message of the exception raised. It also has `MapReply`, the "loop over a
  list, stop at the first exception" pattern, and `MapEach`, the loop that
  implements it.
- `text.dfy`, module `Text`: the Python string operations the code relies on,
  for ASCII text. These are `lower`/`upper`/`title`, `strip`, `split`/`join`,
  substring search, `s.split(p)[-1]`, the regular expressions `INV-(\d+)` and
  `tag[-_]?(\d+)`, and `str()` of integers and two-decimal floats.
- `schemas.dfy`, module `Schemas`: scalar values, records (dictionaries of
  scalars), documents, and the retrieval, verification and audit records.
- `audit.dfy`, module `Audit`: `AuditLogger` over the lines of the log file.
- `vector_store.dfy`, module `VectorStore`: `load_documents_from_json`, from
  parsed items to documents.
- `planner.dfy`, module `Planner`: `QueryPlanner.plan_query`.
- `verifier.dfy`, module `Verifier`: `ResultVerifier`.
- `retriever.dfy`, module `Retriever`: `DocumentRetriever`.
- `rag_system.dfy`, module `RagSystem`: `AgenticRAGSystem`.
- `main_api.dfy`, module `MainApi`: the id extractors, the answer builder, and
  the `/query` handler's steps.

The code mutates state in three ways, and each has a direct counterpart:

- The logger, the verifier, the retriever, the orchestrator and the handler are
  classes. Their methods update fields or the shared logger.
- Each loop is a `while` loop. It is proved against a specification function,
  and the properties are lemmas about that function.
- Pure decision ladders are functions.

Where the repository's own description and the code disagree, the model
follows the code:

- A PO amount of 0 is not an amount mismatch. `float` division raises, and the
  `except` block absorbs the error: confidence 0, an error issue, and no
  recommendation (`Verifier.ZeroPoAmountIsAbsorbed`).
- The audit readers do not recover from a malformed line. Only a missing file
  is caught, so one bad line in the window (for `get_recent_logs`) or anywhere
  (for `get_session_logs`) makes the read raise. A bad line outside the recent
  window is never parsed.
- The flag queries of the planner and of the response do not agree. The
  planner accepts "flag", but the response ladder only reaches the flagged
  analysis for "flagged" (`RagSystem.BareFlagSkipsAnalysis`).
- The repository's description says an auto-approvable result needs
  confidence 70 or more. On the error path, the `except` block zeroes the
  confidence but keeps the analysis's `auto_approvable`, so a result can be
  auto-approvable with confidence 0 (`Verifier.AbsorbedKeepsAutoApproval`).

Some names the code calls are not defined in the files shown:

- `List` in `verifier.py`.
- `llm_client`.
- The two-argument `plan_query` and `plan["steps"]` used by `main.py`.
- The store's `get_invoice_by_id`, `search_invoices`, `get_po_by_number` and
  `search_pos`.
- The names `main.py` imports that the files shown do not define:
  - `query_planner`: `planner.py` defines only the class `QueryPlanner`;
  - `QueryRequest` and `QueryResponse`: `schemas.py` declares neither;
  - `VectorStore` and `initialize_vector_store`: `vector_store.py` defines only
    `VectorStoreManager`, and `retriever.py` imports `VectorStore` too.

The model gives each of them its evident meaning as an input. The analysis is
the dictionary after `verification_result.update(analysis)`, or the exception
it raised. The steps are a list of strings. The store is four functions that
may raise.

## Model

| member | source | states |
|---|---|---|
| Common.MapReply | app/data/vector_store.py:31-71 | Walking a list with a step that may raise succeeds iff every step succeeds, and then yields one value per element, in order |
| Common.MapEach | app/data/vector_store.py:29-71 | The per-item loop appends the result for each element in order and stops at the first exception; it returns exactly `MapReply`, which succeeds iff every element succeeds and then has one result per element, in order |
| Audit.AuditLogger.constructor | app/utils/audit.py:12-14 | The logger starts on the existing file's lines, or on no file |
| Audit.AuditLogger.LogAction | app/utils/audit.py:16-36 | Appends exactly one line at the end, with the agent, action, input, output and confidence verbatim; earlier lines are unchanged; appending creates a missing file |
| Audit.AuditLogger.GetRecentLogs | app/utils/audit.py:38-48 | Equals `RecentLogs`: a missing file gives []; otherwise the lines of `lines[-limit:]` are parsed in order and the first malformed one raises; the log is not modified |
| Audit.AuditLogger.GetSessionLogs | app/utils/audit.py:50-61 | Equals `SessionLogs`: a missing file gives []; otherwise every line is parsed, the first malformed one raises, and the session's entries are kept in write order |
| Audit.ParseLines | app/utils/audit.py:45 | Succeeds iff every line is a written entry, and then gives one entry per line in order; otherwise raises the malformed-line error |
| Audit.AppendedAllLines | app/utils/audit.py:34-36 | Appending entries one by one adds exactly their lines at the end of the file, in order |
| Audit.AppendedAllConcat | app/utils/audit.py:34-36 | Appending `a` then `b` is appending `a + b` |
| Audit.ParseWritten | app/utils/audit.py:35-45 | The lines `log_action` wrote parse back to exactly the entries written |
| Audit.RecentIsLastEntries | app/utils/audit.py:44-45 | For limit >= 1 the recent logs are the last min(limit, n) entries, in write order |
| Audit.RecentZeroIsEverything | app/utils/audit.py:44 | `lines[-0:]` is the whole list, so limit 0 returns every entry |
| Audit.RecentNegativeDrops | app/utils/audit.py:44 | A negative limit -k drops the first min(k, n) entries |
| Audit.RecentRoundTrip | app/utils/audit.py:16-45 | N entries appended to a missing log come back from `get_recent_logs(N)`, in order |
| Audit.RecentFailsOnMalformedInWindow | app/utils/audit.py:44-47 | A malformed line inside the window makes `get_recent_logs` raise; there is no partial result |
| Audit.SessionFailsOnMalformed | app/utils/audit.py:55-60 | Any malformed line makes `get_session_logs` raise; there is no partial result |
| Audit.SessionFilterMembers | app/utils/audit.py:56-58 | An entry is kept iff it is in the log and its `input_data.session_id` is the session |
| Audit.SessionLogsOfWritten | app/utils/audit.py:50-61 | On a log that holds only written entries, `get_session_logs` succeeds, and an entry is returned iff it was written with that session id |
| Audit.SessionLogsAfterAppend | app/utils/audit.py:16-58 | One more append extends a readable log's session view by that entry exactly when it belongs to the session |
| Planner.TagMatchIsInvToken | app/agents/planner.py:13 | The pattern `INV-(\d+)` matches at i iff the upper-cased text has `INV-` and a digit there; the capture is the whole digit run |
| Planner.InvoiceIdIsFirstToken | app/agents/planner.py:13-14 | The id is None iff the upper-cased query has no `INV-` followed by a digit; otherwise it is `INV-` and the maximal digit run at the first such position |
| Planner.FlagTestIsFlagSubstring | app/agents/planner.py:25 | The test `"flagged" in q or "flag" in q` is the same as `"flag" in q` |
| Planner.FlagBranchActions | app/agents/planner.py:25-30 | A flag query plans [retrieve_invoice, retrieve_matching_po, explain_flagging] with an id, [retrieve_invoice, explain_flagging] without, and its reasoning embeds the id |
| Planner.FlagOutranksApprove | app/agents/planner.py:25-33 | A query with "flag" is never planned as an approval |
| Planner.ApproveBranchActions | app/agents/planner.py:32-34 | Without "flag" but with "approve", the actions are exactly [approve_invoice], with the fixed approval reasoning |
| Planner.PlanShape | app/agents/planner.py:36-40 | Every plan has 1 to 3 actions; any other query is exactly [general_search] with the fixed reasoning; the plan keeps the query and the extracted id |
| Planner.PlanIgnoresCase | app/agents/planner.py:13-38 | Two queries that differ only in letter case get the same actions, id and reasoning |
| Verifier.ResultVerifier.constructor | app/agents/verifier.py:12-14 | The verifier writes to the given audit logger |
| Verifier.ResultVerifier.VerifyInvoicePoMatch | app/agents/verifier.py:16-107 | The result is `Verification` of the inputs; the log gets exactly two more entries: the start entry with confidence 0, then the completion entry with the final result and its confidence |
| Verifier.ResultVerifier.ApplyDecisions | app/agents/verifier.py:71-91 | The flagging, confidence, auto-approval and recommendation assignments compute exactly `Decide` |
| Verifier.ResultVerifier.RunPoChecks | app/agents/verifier.py:47-64 | The three PO checks, run in place, finish exactly as `PoChecks`: the new result, or the exception and the partial result at that point |
| Verifier.ResultVerifier.RunVendorCheck | app/agents/verifier.py:49-51 | The vendor check, run in place, finishes exactly as `VendorCheck` |
| Verifier.ResultVerifier.RunAmountCheck | app/agents/verifier.py:53-59 | The amount check, run in place, finishes exactly as `AmountCheck` |
| Verifier.ConfidenceBounded | app/agents/verifier.py:76-96 | The confidence always ends in [0, 100], and is 0 whenever an exception was absorbed |
| Verifier.NormalPathDecisions | app/agents/verifier.py:72-91 | On the normal path: confidence = clamp(score - 5 * issues); auto-approvable iff confidence >= 70 and at most one issue; exactly one recommendation appended, by the bands < 50, < 80 and the rest; the issues are added to the flagging reasons iff the score is below 70 |
| Verifier.AutoApprovalIsNotEscalated | app/agents/verifier.py:109-111 | On the normal path (no exception absorbed), an auto-approvable result is never escalated by `should_escalate` |
| Verifier.PoChecksInOrder | app/agents/verifier.py:47-64 | With a PO the issues are appended in the order vendor (case-insensitive, -20), amount (-15), PO number (-25), each exactly when its check fails; flagging reasons and recommendations are untouched |
| Verifier.VendorCaseIgnored | app/agents/verifier.py:49 | Vendor names that differ only in case compare equal |
| Verifier.AmountRule | app/agents/verifier.py:54-57 | The whole-cents rule raises iff the PO amount is 0; otherwise it equals the exact comparison abs(inv - po) / po > 0.05; a negative PO amount never fires |
| Verifier.NoPoOutcome | app/agents/verifier.py:66-73 | Without a PO: score 30, the missing-PO issue appended, and the missing-PO reason before the issues in the flagging reasons |
| Verifier.BaselineWithoutPo | app/agents/verifier.py:66-91 | An empty analysis and no PO give exactly one issue, two flagging reasons, confidence 25, "Manual review required", not auto-approvable |
| Verifier.BaselineWithPoIsRejected | app/agents/verifier.py:47-91 | An empty analysis with a PO gives confidence 0, not auto-approvable, "Manual review required" |
| Verifier.ZeroPoAmountChecks | app/agents/verifier.py:54-57 | A zero PO amount stops the checks at the amount rule with a division error, after the vendor check has run |
| Verifier.ZeroPoAmountIsAbsorbed | app/agents/verifier.py:93-96 | A zero PO amount ends with the division error recorded, confidence 0, the error issue after any vendor issue, and recommendations, flagging reasons and auto-approval left as the analysis gave them |
| Verifier.AbsorbedKeepsAutoApproval | app/agents/verifier.py:93-111 | On the error path an analysis that says auto-approvable stays auto-approvable with confidence 0, and `should_escalate` then escalates it |
| Verifier.AnalysisFailureIsAbsorbed | app/agents/verifier.py:93-96 | An exception from the analysis call leaves the empty result plus the error, confidence 0 |
| Retriever.DocumentRetriever.constructor | app/agents/retriever.py:12-14 | The retriever consults the given store and writes to the given logger |
| Retriever.DocumentRetriever.RetrieveInvoice | app/agents/retriever.py:16-65 | The result is `InvoiceRetrieval`; the log gets exactly the start entry with confidence 0 and the completion entry with the result and its confidence |
| Retriever.DocumentRetriever.RetrievePo | app/agents/retriever.py:67-116 | The result is `PoRetrieval`; the log gets exactly two entries, as for invoices |
| Retriever.InvoiceTiers | app/agents/retriever.py:27-54 | Invoice confidence is 0, 95 or 80; found iff confidence > 0; a miss leaves no document and no search results; an error implies not found |
| Retriever.PoTiers | app/agents/retriever.py:78-105 | PO confidence is 0, 95 or 75, with the same shape |
| Retriever.InvoiceDirectHit | app/agents/retriever.py:35-41 | A direct hit is the answer with confidence 95, whatever the search would return |
| Retriever.InvoiceSearchFallback | app/agents/retriever.py:43-50 | Without an id, or on a miss, a non-empty search of 3 gives its first hit, all hits and confidence 80 |
| Retriever.PoDirectHit | app/agents/retriever.py:86-92 | A direct PO hit gives confidence 95 |
| Retriever.PoEmptyQueryMiss | app/agents/retriever.py:94-101 | With an empty query a PO miss is "not found" without any search |
| Retriever.InvoiceStoreFailure | app/agents/retriever.py:27-54 | Whichever store call on the executed path raises (the lookup by a given id, or the search after no id or a missed lookup), the exception is recorded with confidence 0 and nothing found; it does not propagate |
| Retriever.InvoiceErrorFromStore | app/agents/retriever.py:27-54 | An invoice result carries an error only when a store call on its path raised that message |
| Retriever.PoStoreFailure | app/agents/retriever.py:78-105 | Whichever store call on the executed path of `retrieve_po` raises (the lookup by a given number, or the search for a non-empty query after no number or a missed lookup), the exception is recorded with confidence 0 and nothing found |
| Retriever.PoErrorFromStore | app/agents/retriever.py:78-105 | A PO result carries an error only when a store call on its path raised that message |
| VectorStore.LoadDocuments | app/data/vector_store.py:29-72 | The loop over the items returns exactly `DocumentsOf` |
| VectorStore.DocumentsOf | app/data/vector_store.py:29-72 | Succeeds iff every item has the keys its template reads, and then gives one document per item, in order, the i-th built from the i-th item |
| VectorStore.DocumentOf | app/data/vector_store.py:61-70 | Raises exactly when a key the template reads is missing; the text has no leading or trailing whitespace |
| VectorStore.ContentOf | app/data/vector_store.py:31-60 | The template renders exactly when the item is well formed for its layout |
| VectorStore.InvoiceRows | app/data/vector_store.py:32-45 | The invoice template has 12 rows, the last being "Flagged Reasons: " and the reasons joined with ", " (empty when the list is missing) |
| VectorStore.PoRows | app/data/vector_store.py:47-60 | The PO template renders iff its keys, its line items and the approver are present |
| VectorStore.LineItemsText | app/data/vector_store.py:42 | The line-items text renders iff the list is present and every item has the three keys of its layout |
| VectorStore.MetadataOf | app/data/vector_store.py:63-69 | The metadata has exactly the keys type, id, vendor, amount and status, taken from the document type, the id field, vendor, total_amount and status |
| VectorStore.MetadataKeysPresent | app/data/vector_store.py:63-69 | Both layouts read vendor, total amount and status, so building the metadata of a well-formed item cannot fail |
| VectorStore.DocumentMetadata | app/data/vector_store.py:63-69 | A document's id is `invoice_id` for invoices and `po_number` otherwise; the other metadata come from the item |
| VectorStore.InvoiceDocumentText | app/data/vector_store.py:62 | An invoice document's text is its stripped template |
| VectorStore.StrippedTemplate | app/data/vector_store.py:62 | Stripping the template removes exactly the leading line break and indentation and the closing indentation |
| VectorStore.OtherTypesUsePoLayout | app/data/vector_store.py:46-65 | Every type other than "invoice" gets the PO layout and the PO number as its id |
| Text.Strip | app/data/vector_store.py:62 | `strip()` leaves text that neither starts nor ends with whitespace |
| Text.StripPadded | app/data/vector_store.py:62 | `strip()` removes exactly the whitespace padding around a trimmed text |
| Text.Split | app/agents/rag_system.py:148 | `split(c)` always yields at least one part |
| Text.SplitAtFirst | app/agents/rag_system.py:148 | `split(',')` splits off the text before the first comma, then splits the rest |
| Text.FirstOccurrence | app/agents/rag_system.py:146 | The first index where the pattern occurs, or None iff it occurs nowhere |
| Text.LastPieceAfter | app/agents/rag_system.py:147 | `s.split(p)[-1]` is what follows an occurrence of p when none starts after it and none overlaps its start |
| Text.NatText | app/agents/rag_system.py:195 | `str(n)` of a natural number is a non-empty run of digits |
| Text.UpperOfLower | app/agents/planner.py:13 | `upper()` forgets whatever `lower()` did |
| Text.DigitRun | app/main.py:162 | `\d+` takes the longest run of digits at the start |
| Text.FirstTagMatch | app/main.py:162 | `re.search` reports the leftmost position where the pattern matches, or none iff it matches nowhere |
| RagSystem.AgenticRagSystem.constructor | app/agents/rag_system.py:12-15 | The orchestrator starts with an empty audit list |
| RagSystem.AgenticRagSystem.ProcessQuery | app/agents/rag_system.py:17-75 | The result is `QueryOutcome`; the audit list is reset and ends with exactly the planning, retrieval and response records (the first two when composing the response raised) |
| RagSystem.AgenticRagSystem.ExecuteActions | app/agents/rag_system.py:33-46 | The action loop extends the evidence to exactly `Gathered` |
| RagSystem.AgenticRagSystem.GenerateResponseLocal | app/agents/rag_system.py:95-116 | Returns exactly `ResponseLocal` |
| RagSystem.AgenticRagSystem.GenerateFlaggedResponse | app/agents/rag_system.py:118-173 | Returns exactly `FlaggedResponse` |
| RagSystem.AgenticRagSystem.FindFlaggedDoc | app/agents/rag_system.py:121-139 | The two search loops find exactly `FlaggedDoc`; the fallback runs only when the first finds nothing |
| RagSystem.AgenticRagSystem.FirstFlaggedInvoice | app/agents/rag_system.py:122-132 | The first loop stops at the first flagged invoice that mentions the id (any one when no id) |
| RagSystem.AgenticRagSystem.FirstMentioningReasons | app/agents/rag_system.py:134-139 | The fallback loop stops at the first text mentioning flagged reasons |
| RagSystem.AgenticRagSystem.GenerateGeneralResponse | app/agents/rag_system.py:189-210 | The summary loop returns exactly `GeneralResponse` |
| RagSystem.FirstWhere | app/agents/rag_system.py:123-139 | The index of the first document that passes the test, or None iff none does |
| RagSystem.Metadatas | app/agents/rag_system.py:72 | One metadata record per document, in order |
| RagSystem.CleanParts | app/agents/rag_system.py:148 | Every kept part is non-empty and stripped, and no more parts come out than went in |
| RagSystem.CleanSplitJoin | app/agents/rag_system.py:148 | Splitting padded ", "-joined plain reasons on ',' and stripping each part gives the reasons back |
| RagSystem.TextAfterLabel | app/agents/rag_system.py:147 | The text after the last "Flagged Reasons:" is the space and the joined reasons, whatever precedes the label |
| RagSystem.ParseAfterMarker | app/agents/rag_system.py:146-148 | A text ending in the label, a space and the joined reasons parses back to exactly those reasons |
| RagSystem.InvoiceTextEndsWithReasons | app/data/vector_store.py:44-62 | An invoice document's text ends in "Flagged Reasons: " and its reasons joined with ", " |
| RagSystem.ReasonsRoundTrip | app/agents/rag_system.py:146-148 | The reasons parsed back from an invoice document are exactly the item's `flagged_reasons`, when the list is non-empty and each reason is non-empty, comma-free, unpadded and free of the label |
| RagSystem.ParsedReasonsClean | app/agents/rag_system.py:146-152 | Parsed reasons are always non-empty and stripped; without the label there is at least one |
| RagSystem.FlaggedDocChoice | app/agents/rag_system.py:121-139 | A flagged invoice is chosen if there is one; otherwise the first text that mentions reasons; none only if neither exists |
| RagSystem.GatheredAppend | app/agents/rag_system.py:33-46 | Running two action lists one after the other gathers the evidence of each, in order |
| RagSystem.PlannedEvidence | app/agents/rag_system.py:33-46 | The evidence of a plan: invoice hits then PO hits only with an id for a flag query; nothing for an approval; invoice hits then PO hits for a general search |
| RagSystem.RetrieversDown | app/agents/rag_system.py:77-93 | With both retrievers raising, the query still completes, with no sources, the approval text for an "approve" query and the no-documents text otherwise, and confidence 0.1 |
| RagSystem.StagesOfQuery | app/agents/rag_system.py:48-75 | A completed query has exactly three audit records: the plan, the count with the metadata of at most the first three documents, and the response length; sources list every document |
| RagSystem.ResponseLadder | app/agents/rag_system.py:100-116 | With evidence, "flagged" gives the flagged analysis whatever else the query says; otherwise "approve" gives the approval text, with or without evidence; only the summary of present evidence for a query with neither word can raise |
| RagSystem.BareFlagSkipsAnalysis | app/agents/rag_system.py:100-116 | A query with "flag" but not "flagged" is planned as a flag query, yet never gets the flagged analysis |
| RagSystem.ConfidenceLevels | app/agents/rag_system.py:212-221 | The confidence is one of 0.1, 0.85, 0.7 and 0.3; it is 0.1 exactly when there is no evidence; one or two documents with a real answer give 0.7 |
| RagSystem.GeneralFailsOnTypes | app/agents/rag_system.py:193-200 | The summary raises exactly when one of the first five documents has a type that is not a string |
| RagSystem.GeneralListsFirstFive | app/agents/rag_system.py:189-205 | The summary lists at most the first five documents, one line each in order, and reports the full count |
| RagSystem.SummaryDefaultId | app/agents/rag_system.py:195 | A listed document without an id is named `doc_{i+1}` |
| MainApi.TagMatchIsToken | app/main.py:162 | `tag[-_]?(\d+)` matches at i iff the tag is followed by a digit, or by one '-' or '_' and a digit |
| MainApi.ExtractedIsFirstToken | app/main.py:160-172 | Nothing is extracted iff the lower-cased query has no match; otherwise the prefix and the whole digit run of the leftmost match |
| MainApi.ExtractedShape | app/main.py:160-172 | An extracted id is the prefix followed by a non-empty run of digits |
| MainApi.ExtractAgain | app/main.py:160-172 | Extracting from the prefix and digits gives them back |
| MainApi.InvoiceIdIdempotent | app/main.py:160-165 | `extract_invoice_id` applied to its own output returns the same id |
| MainApi.PoNumberIdempotent | app/main.py:167-172 | `extract_po_number` applied to its own output returns the same number |
| MainApi.RepoIsPoNumber | app/main.py:167-172 | There is no word boundary: "repo12" gives PO-12 |
| MainApi.FirstVerificationIndex | app/main.py:187-191 | The `for ... break` search finds the first verification evidence, or none iff there is none |
| MainApi.NumberedConcat | app/main.py:197-198 | Numbering two lists one after the other numbers their concatenation |
| MainApi.NumberedAt | app/main.py:197-198 | The reason at index i is on its own line numbered first + i, after all earlier reasons |
| MainApi.NumberReasons | app/main.py:196-198 | The `+=` loop appends one numbered line per reason, counting from 1 |
| MainApi.FlaggedResponse | app/main.py:193-212 | The flagged answer built with `+=` is exactly `FlaggedAnswer` |
| MainApi.GenerateHumanReadableResponse | app/main.py:174-220 | The answer is exactly `HumanReadable` |
| MainApi.NotFoundAnswer | app/main.py:182-183 | Without an invoice the answer is the fixed "couldn't find" message |
| MainApi.FirstVerificationDecides | app/main.py:186-193 | Evidence after the first verification, or any evidence for a query without "flagged", does not change the answer |
| MainApi.FlaggedAnswerKeys | app/main.py:194-207 | The flagged answer raises exactly on a missing key: the invoice id, and with a PO its number, both amounts and the invoice's vendor; a missing invoice id raises `KeyError('invoice_id')` |
| MainApi.FlaggedAnswerLists | app/main.py:194-198 | A flagged answer opens with the header and the flagging reasons numbered from 1, in order |
| MainApi.DefaultAnswerLinksPo | app/main.py:214-220 | The default sentence raises exactly on a missing key; a present PO only appends " It's linked to PO ..." |
| MainApi.QueryApi.constructor | app/main.py:78-79 | The handler sees the retriever (none while not initialised), the verifier and the logger |
| MainApi.QueryApi.ProcessQuery | app/main.py:74-158 | 503 while not initialised, with the log unchanged; otherwise the reply is `Outcome`'s and the log grows by exactly the entries it wrote |
| MainApi.QueryApi.RunSteps | app/main.py:97-148 | The `try` block's steps leave the log grown by the entries written, and end as `Outcome` does |
| MainApi.QueryApi.RetrieveInvoiceStep | app/main.py:105-115 | The invoice step updates the draft exactly as `InvoiceStage`, and the log by the retriever's two entries |
| MainApi.QueryApi.RetrievePoStep | app/main.py:117-127 | The PO step updates the draft exactly as `PoStage`, and the log by the retriever's two entries |
| MainApi.QueryApi.VerifyStep | app/main.py:129-138 | The verification step updates the draft exactly as `VerifyStage`, and the log by the verifier's two entries |
| MainApi.GatheredDraft | app/main.py:98-127 | After retrieval: evidence "invoice" then "purchase_order", each present iff its step was planned and found something, one source each, scores still 0 |
| MainApi.VerifiedDraft | app/main.py:129-138 | The verification step appends one verification record and copies its score and confidence, exactly when an invoice was found and the analysis step is planned |
| MainApi.AnsweredFromDraft | app/main.py:140-148 | An answered query carries the evidence, sources and scores of the verified draft |
| MainApi.EvidenceInOrder | app/main.py:98-139 | A successful reply has evidence in the order invoice, PO, verification, each present exactly when its step was planned and succeeded; one source per found document; the verification's score and confidence, or 0 and 0 without one |
| MainApi.FailureShaped | app/main.py:150-158 | The `except` block adds one API entry with confidence 0 carrying the message, and a 500 with "Processing error: " and that message |
| MainApi.RespondShaped | app/main.py:140-158 | Answering keeps the draft's evidence, sources and scores; a failure while answering is error-shaped |
| MainApi.ErrorIsOneEntry | app/main.py:150-158 | Any exception becomes one 500 error and exactly one audit entry, the last, written by the API with confidence 0; every other entry of the call comes from an agent |

## Left out

- Everything outside the decision logic is not part of this model:
  - the Streamlit front end;
  - the LangChain/OpenAI wrapper;
  - the mock-data generator;
  - the print-driven test driver;
  - the pydantic declarations, which only serve as a field reference;
  - the FastAPI setup, CORS, startup, `/`, `/health`, `/audit-logs` and `/invoices/{id}`.
- In the vector store, only the item-to-document construction of
  `load_documents_from_json` is modelled:
  - reading and parsing the JSON file is left out, and the items are an input;
  - the Chroma client, the embeddings, `setup_vector_stores` and the retriever
    getters are library wrappers and are left out.
- Similarity search and lookups are parameters (`DocSource`, `DocumentStore`).
  They are total functions that return documents or raise. Their ranking is
  not modelled.
- The language-model analysis is an input record, or the message of the
  exception it raised.
- Timestamps are left out. They are not in the plan, the stage records or the
  audit entries.
- The session uuid is a parameter.
- JSON serialisation is left out. An audit line is either an entry or a
  malformed line.
- The debug prints are left out.
- Strings are ASCII:
  - `lower`, `upper`, `title` and `isspace` follow the ASCII rules, and Unicode
    case mapping is not modelled;
  - the bullet is a single code point, and the warning sign is the two code
    points U+26A0 U+FE0F, as written in the source.
- Floats are held as integer cents, so every amount has at most two decimals.
  `str()` of such a value is rendered as Python's shortest repr would render it
  for amounts below 2^46 (about 7 * 10^13), where every cent value is a
  distinct double.
  IEEE rounding is not modelled. The amount rule is decided on exact values
  (`Verifier.AmountRule`).
- Text.CentsText: prints the exact cents. From 2^46 (about 7 * 10^13) up, a
  double no longer holds every cent value, and Python may print a neighbouring
  cent value ("99999999999999.98" for 99999999999999.99). From 10^16 up,
  Python switches to exponent form ("1e+16").
- Verifier.AmountOf: a string amount always raises. Python's `float()` would
  accept a numeric string such as "12.5", which the model does not parse.
- Scores and confidences from the analysis are integers. A float score is not
  modelled.
- The `/query` reply is modelled as a record with the fields `main.py` fills
  in. The `QueryResponse` model those fields would go through is not defined
  in the files shown, so no validation of it is modelled.
- The handler's plan steps are an input list. The planner shown has no `steps`
  and no two-argument `plan_query`.
- The `List` annotation that `verifier.py` never imports is left out, and so
  is the missing `llm_client`. The `/query` model assumes the names listed
  above exist, each with its evident meaning. The model does not reproduce
  the import errors of `verifier.py` and `main.py` as shown.
- There is no concurrency in the code, and none is modelled. The audit file
  has no locking.
