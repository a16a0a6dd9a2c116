/**
 * The local RAG orchestrator (app/agents/rag_system.py): plans the query,
 * runs the planned retrievals, picks a response template from the query's
 * keywords and the evidence, and keeps a three-stage audit list of the last
 * query. The two similarity retrievers are parameters; timestamps and the
 * debug prints are not modelled.
 */
module RagSystem {
  import opened Common
  import opened Text
  import opened Schemas
  import opened Planner
  import opened VectorStore

  /** The invoice and PO retrievers: a query and `k` give the best `k` documents, or raise. */
  datatype DocSource = DocSource(
    invoices: (string, nat) -> Reply<seq<Document>>,
    pos: (string, nat) -> Reply<seq<Document>>)

  const InvoiceK := 3
  const PoK := 2

  /** `_retrieve_invoices`: a retriever exception gives no documents. */
  function InvoiceDocs(src: DocSource, query: string): seq<Document>
  {
    match src.invoices(query, InvoiceK)
    case Ok(docs) => docs
    case Raised(_) => []
  }

  /** `_retrieve_pos`. */
  function PoDocs(src: DocSource, query: string): seq<Document>
  {
    match src.pos(query, PoK)
    case Ok(docs) => docs
    case Raised(_) => []
  }

  /** What one planned action adds to the evidence. */
  function ActionDocs(src: DocSource, query: string, a: Action): seq<Document>
  {
    match a
    case RetrieveInvoice => InvoiceDocs(src, query)
    case RetrieveMatchingPo => PoDocs(src, query)
    case GeneralSearch => InvoiceDocs(src, query) + PoDocs(src, query)
    case _ => []
  }

  /** The evidence gathered by running `actions` in order. */
  function Gathered(src: DocSource, query: string, actions: seq<Action>): seq<Document>
    decreases |actions|
  {
    if actions == [] then []
    else Gathered(src, query, actions[..|actions| - 1]) + ActionDocs(src, query, actions[|actions| - 1])
  }

  /** `[doc.metadata for doc in docs]`. */
  function Metadatas(docs: seq<Document>): (ms: seq<Record>)
    ensures |ms| == |docs| && forall i :: 0 <= i < |docs| ==> ms[i] == docs[i].metadata
  {
    seq(|docs|, i requires 0 <= i < |docs| => docs[i].metadata)
  }

  function Min(a: int, b: int): int { if a < b then a else b }

  // ----------------------------------------------------- response texts

  const NoDocumentsText := "No relevant documents found for your query. Please try a different search term or check if the invoice/PO exists."

  const Bullet := "\U{2022} "

  /** The warning sign the approval text puts on either side of its banner. */
  const Warning := "\U{26A0}\U{FE0F}"

  /** `_generate_approval_response`: a fixed text. */
  const ApprovalText :=
    "**Approval Request Processed**\n\n" +
    Warning + "  **HUMAN CONFIRMATION REQUIRED** " + Warning + "\n\n" +
    "This is a demo system. In production:\n" +
    "1. Manager approval would be required\n" +
    "2. Audit trail would be updated  \n" +
    "3. Invoice status would change to 'Approved'\n\n" +
    "**Action:** Mock approval logged to audit trail.\n" +
    "**Status:** Pending human confirmation"

  const DefaultFlagReasons := ["Amount mismatch detected", "Missing supporting documents"]
  const GeneralReviewReason := "General compliance review required"

  // ------------------------------------------------- the flagged document

  /** The first loop's test: an invoice in status flagged that mentions the id, when one was given. */
  predicate FlaggedInvoice(doc: Document, invoiceId: Option<string>)
  {
    Get(doc.metadata, "type") == Str("invoice") && Get(doc.metadata, "status") == Str("flagged") &&
    (!Given(invoiceId) || Contains(doc.pageContent, invoiceId.value))
  }

  /** The second loop's test: the text mentions flagged reasons. */
  predicate MentionsReasons(doc: Document)
  {
    Contains(Lower(doc.pageContent), "flagged_reasons") || Contains(Lower(doc.pageContent), "flagged reasons")
  }

  /** The index of the first document that passes `test`. */
  function FirstWhere(docs: seq<Document>, test: Document -> bool): (r: Option<nat>)
    ensures r.Some? ==> r.value < |docs| && test(docs[r.value]) && forall k :: 0 <= k < r.value ==> !test(docs[k])
    ensures r.None? ==> forall k :: 0 <= k < |docs| ==> !test(docs[k])
    decreases |docs|
  {
    if docs == [] then None
    else if test(docs[0]) then Some(0)
    else match FirstWhere(docs[1..], test)
      case None => None
      case Some(i) => Some(i + 1)
  }

  /** A document that passes `test` after a run of documents that do not is the first match. */
  lemma FirstWhereAt(docs: seq<Document>, test: Document -> bool, i: nat)
    requires i < |docs| && test(docs[i]) && forall k :: 0 <= k < i ==> !test(docs[k])
    ensures FirstWhere(docs, test) == Some(i)
  {
  }

  /** The document the flagged response explains: a flagged invoice first, then any that mentions reasons. */
  function FlaggedDoc(docs: seq<Document>, invoiceId: Option<string>): Option<Document>
  {
    match FirstWhere(docs, d => FlaggedInvoice(d, invoiceId))
    case Some(i) => Some(docs[i])
    case None =>
      match FirstWhere(docs, MentionsReasons)
      case Some(i) => Some(docs[i])
      case None => None
  }

  // ------------------------------------------------------------ reasons

  /** `[r.strip() for r in parts if r.strip()]`. */
  function CleanParts(parts: seq<string>): (r: seq<string>)
    ensures |r| <= |parts|
    ensures forall i :: 0 <= i < |r| ==> r[i] != "" && Trimmed(r[i])
    decreases |parts|
  {
    if parts == [] then []
    else (if Strip(parts[0]) != "" then [Strip(parts[0])] else []) + CleanParts(parts[1..])
  }

  /** The reasons read back from a document's text. */
  function ParseReasons(content: string): seq<string>
  {
    if Contains(content, FlaggedReasonsMarker) then
      CleanParts(Split(Strip(LastPiece(content, FlaggedReasonsMarker)), ','))
    else if Contains(Lower(content), "flagged") then DefaultFlagReasons
    else [GeneralReviewReason]
  }

  function Bullets(items: seq<string>): (r: seq<string>)
    ensures |r| == |items| && forall i :: 0 <= i < |items| ==> r[i] == Bullet + items[i]
  {
    seq(|items|, i requires 0 <= i < |items| => Bullet + items[i])
  }

  /** The flagged-invoice analysis: the triple-quoted template, line by line. */
  function FlaggedText(doc: Document, reasons: seq<string>, evidence: nat): string
  {
    var md := doc.metadata;
    "**Invoice " + Show(GetOr(md, "id", Str("Unknown"))) + " Flagging Analysis**\n\n" +
    "**Why it was flagged:**\n" + Join(Bullets(reasons), "\n") + "\n\n" +
    "**Invoice Details:**\n" +
    "- Vendor: " + Show(GetOr(md, "vendor", Str("Unknown"))) + "\n" +
    "- Amount: $" + Show(GetOr(md, "amount", Str("Unknown"))) + "\n" +
    "- Status: " + Show(GetOr(md, "status", Str("Unknown"))) + "\n\n" +
    "**Evidence Retrieved:** " + NatText(evidence) + " supporting documents\n" +
    "**Match Confidence:** 85%\n\n" +
    "**Recommendation:** Review flagged items before approval. Use 'Approve it' if issues are resolved."
  }

  function NotFlaggedText(invoiceId: Option<string>): string
  {
    "Invoice " + (if Given(invoiceId) then invoiceId.value else "specified") +
    " was not found in flagged status. Please check the invoice ID or status."
  }

  /** `_generate_flagged_response`. */
  function FlaggedResponse(docs: seq<Document>, invoiceId: Option<string>): string
  {
    match FlaggedDoc(docs, invoiceId)
    case Some(doc) => Strip(FlaggedText(doc, ParseReasons(doc.pageContent), |docs|))
    case None => NotFlaggedText(invoiceId)
  }

  // ---------------------------------------------------- general response

  /** `enumerate(docs)`. */
  function Enumerate(docs: seq<Document>): (r: seq<(nat, Document)>)
    ensures |r| == |docs| && forall i :: 0 <= i < |docs| ==> r[i] == (i, docs[i])
  {
    seq(|docs|, i requires 0 <= i < |docs| => (i, docs[i]))
  }

  /** One summary line; `title()` on a type that is not a string raises AttributeError. */
  function Summary(entry: (nat, Document)): Reply<string>
  {
    var md := entry.1.metadata;
    var docType := GetOr(md, "type", Str("document"));
    if !docType.Str? then Raised("'" + TypeName(docType) + "' object has no attribute 'title'")
    else Ok(SummaryHead(docType.s) + Show(GetOr(md, "id", Str("doc_" + NatText(entry.0 + 1)))) + SummaryTail(md))
  }

  /** The part of a summary line before the id. */
  function SummaryHead(docType: string): string
  {
    Bullet + Title(docType) + " "
  }

  /** The part of a summary line after the id. */
  function SummaryTail(md: Record): string
  {
    " - " + Show(GetOr(md, "vendor", Str("Unknown"))) + " ($" + Show(GetOr(md, "amount", Str("Unknown"))) +
    ") - " + Show(GetOr(md, "status", Str("Unknown")))
  }

  function GeneralText(query: string, count: nat, summaries: seq<string>): string
  {
    "**Search Results for: \"" + query + "\"**\n\n**Found " + NatText(count) + " relevant documents:**\n" +
    Join(summaries, "\n") +
    "\n\n**Sources:** Invoice and PO databases\n**Confidence:** 70%\n\n" +
    "**Next Steps:** Review specific documents or ask about flagged invoices."
  }

  /** The documents the general response lists: at most five. */
  function Shown(docs: seq<Document>): seq<Document>
  {
    docs[..Min(5, |docs|)]
  }

  /** `_generate_general_response`: lists the first five documents and reports how many there are. */
  function GeneralResponse(query: string, docs: seq<Document>): Reply<string>
  {
    var summaries :- MapReply(Summary, Enumerate(Shown(docs)));
    Ok(GeneralText(query, |docs|, summaries))
  }

  // ---------------------------------------------------- response ladder

  /** `_generate_response_local`: no evidence, then "flagged", then "approve", then the general summary. */
  function ResponseLocal(query: string, docs: seq<Document>): Reply<string>
  {
    var q := Lower(query);
    if |docs| == 0 then Ok(if Contains(q, "approve") then ApprovalText else NoDocumentsText)
    else if Contains(q, "flagged") then Ok(FlaggedResponse(docs, InvoiceIdIn(query)))
    else if Contains(q, "approve") then Ok(ApprovalText)
    else GeneralResponse(query, docs)
  }

  /** `_assess_confidence`. */
  function AssessConfidence(response: string, docs: seq<Document>): real
  {
    if |docs| == 0 then 0.1
    else if |docs| >= 3 && exists i :: 0 <= i < |docs| && Contains(Lower(docs[i].pageContent), "flagged") then 0.85
    else if response != "" && !Contains(response, "No relevant documents") then 0.7
    else 0.3
  }

  // ------------------------------------------------------- process_query

  /** One element of the per-query audit list; timestamps are not modelled. */
  datatype StageRecord =
    | Planning(input: string, plan: Plan)
    | Retrieval(retrievedCount: nat, sources: seq<Record>)
    | ResponseGeneration(responseLength: nat, generation: string)

  datatype QueryResult = QueryResult(
    query: string,
    response: string,
    confidence: real,
    sources: seq<Record>,
    auditLog: seq<StageRecord>,
    plan: Plan)

  /** The retrieval stage: the total count, and the metadata of the first three documents only. */
  function RetrievalStage(docs: seq<Document>): StageRecord
  {
    Retrieval(|docs|, Metadatas(docs[..Min(3, |docs|)]))
  }

  /** What `process_query` returns; an exception while composing the response propagates. */
  function QueryOutcome(src: DocSource, query: string): Reply<QueryResult>
  {
    var plan := PlanQuery(query);
    var docs := Gathered(src, query, plan.actions);
    var response :- ResponseLocal(query, docs);
    Ok(QueryResult(query, response, AssessConfidence(response, docs), Metadatas(docs),
                   [Planning(query, plan), RetrievalStage(docs), ResponseGeneration(|response|, "rule_based")],
                   plan))
  }

  class AgenticRagSystem {
    const source: DocSource
    /** The audit list of the most recent query. */
    var auditLog: seq<StageRecord>

    constructor (source: DocSource)
      ensures this.source == source && auditLog == []
    {
      this.source := source;
      auditLog := [];
    }

    /** `process_query`: resets the audit list, then appends one record per stage. */
    method ProcessQuery(query: string) returns (r: Reply<QueryResult>)
      modifies this
      ensures r == QueryOutcome(source, query)
      ensures var plan := PlanQuery(query);
              var stages := [Planning(query, plan), RetrievalStage(Gathered(source, query, plan.actions))];
              if r.Ok? then auditLog == r.value.auditLog else auditLog == stages
    {
      auditLog := [];
      var plan := PlanQuery(query);
      auditLog := auditLog + [Planning(query, plan)];
      var docs := ExecuteActions(query, plan.actions);
      auditLog := auditLog + [RetrievalStage(docs)];
      var response := GenerateResponseLocal(query, docs);
      if response.Raised? {
        DisplayOfTwo(Planning(query, plan), RetrievalStage(docs));
        return Raised(response.message);
      }
      auditLog := auditLog + [ResponseGeneration(|response.value|, "rule_based")];
      DisplayOfThree(Planning(query, plan), RetrievalStage(docs), ResponseGeneration(|response.value|, "rule_based"));
      var confidence := AssessConfidence(response.value, docs);
      r := Ok(QueryResult(query, response.value, confidence, Metadatas(docs), auditLog, plan));
    }

    /** The loop of `process_query` that runs the planned actions and extends the evidence. */
    method ExecuteActions(query: string, actions: seq<Action>) returns (docs: seq<Document>)
      ensures docs == Gathered(source, query, actions)
    {
      docs := [];
      var i := 0;
      while i < |actions|
        invariant 0 <= i <= |actions|
        invariant docs == Gathered(source, query, actions[..i])
      {
        assert actions[..i + 1][..i] == actions[..i];
        var action := actions[i];
        if action == RetrieveInvoice {
          docs := docs + InvoiceDocs(source, query);
        } else if action == RetrieveMatchingPo {
          docs := docs + PoDocs(source, query);
        } else if action == GeneralSearch {
          var invoiceDocs := InvoiceDocs(source, query);
          var poDocs := PoDocs(source, query);
          docs := docs + invoiceDocs;
          docs := docs + poDocs;
        }
        i := i + 1;
      }
      assert actions[..i] == actions;
    }

    /** `_generate_response_local`. */
    method GenerateResponseLocal(query: string, docs: seq<Document>) returns (r: Reply<string>)
      ensures r == ResponseLocal(query, docs)
    {
      var q := Lower(query);
      if |docs| == 0 {
        if Contains(q, "approve") {
          return Ok(ApprovalText);
        }
        return Ok(NoDocumentsText);
      }
      var invoiceId := InvoiceIdIn(query);
      if Contains(q, "flagged") {
        var response := GenerateFlaggedResponse(docs, invoiceId);
        return Ok(response);
      } else if Contains(q, "approve") {
        return Ok(ApprovalText);
      }
      r := GenerateGeneralResponse(query, docs);
    }

    /** `_generate_flagged_response`: two search loops that stop at the first match. */
    method GenerateFlaggedResponse(docs: seq<Document>, invoiceId: Option<string>) returns (response: string)
      ensures response == FlaggedResponse(docs, invoiceId)
    {
      var flagged := FindFlaggedDoc(docs, invoiceId);
      if flagged.Some? {
        var doc := flagged.value;
        response := Strip(FlaggedText(doc, ParseReasons(doc.pageContent), |docs|));
      } else {
        response := NotFlaggedText(invoiceId);
      }
    }

    /** The two search loops of `_generate_flagged_response`: the fallback runs only when the first finds nothing. */
    method FindFlaggedDoc(docs: seq<Document>, invoiceId: Option<string>) returns (flagged: Option<Document>)
      ensures flagged == FlaggedDoc(docs, invoiceId)
    {
      var first := FirstFlaggedInvoice(docs, invoiceId);
      if first.Some? {
        return Some(docs[first.value]);
      }
      var fallback := FirstMentioningReasons(docs);
      if fallback.Some? {
        return Some(docs[fallback.value]);
      }
      return None;
    }

    /** The first loop: stops at a flagged invoice that mentions the id (any flagged invoice without an id). */
    method FirstFlaggedInvoice(docs: seq<Document>, invoiceId: Option<string>) returns (found: Option<nat>)
      ensures found == FirstWhere(docs, d => FlaggedInvoice(d, invoiceId))
    {
      ghost var isFlagged := d => FlaggedInvoice(d, invoiceId);
      var i := 0;
      while i < |docs|
        invariant 0 <= i <= |docs|
        invariant forall k :: 0 <= k < i ==> !isFlagged(docs[k])
      {
        var md := docs[i].metadata;
        if Get(md, "type") == Str("invoice") && Get(md, "status") == Str("flagged") {
          if Given(invoiceId) {
            if Contains(docs[i].pageContent, invoiceId.value) {
              FirstWhereAt(docs, isFlagged, i);
              return Some(i);
            }
          } else {
            FirstWhereAt(docs, isFlagged, i);
            return Some(i);
          }
        }
        i := i + 1;
      }
      found := None;
    }

    /** The fallback loop: stops at the first text that mentions flagged reasons. */
    method FirstMentioningReasons(docs: seq<Document>) returns (found: Option<nat>)
      ensures found == FirstWhere(docs, MentionsReasons)
    {
      var i := 0;
      while i < |docs|
        invariant 0 <= i <= |docs|
        invariant forall k :: 0 <= k < i ==> !MentionsReasons(docs[k])
      {
        var lower := Lower(docs[i].pageContent);
        if Contains(lower, "flagged_reasons") || Contains(lower, "flagged reasons") {
          FirstWhereAt(docs, MentionsReasons, i);
          return Some(i);
        }
        i := i + 1;
      }
      found := None;
    }

    /** `_generate_general_response`: the loop that builds one summary per shown document. */
    method GenerateGeneralResponse(query: string, docs: seq<Document>) returns (r: Reply<string>)
      ensures r == GeneralResponse(query, docs)
    {
      var summaries :- MapEach(Summary, Enumerate(Shown(docs)));
      r := Ok(GeneralText(query, |docs|, summaries));
    }
  }

  // ------------------------------------------------------------ properties

  /** A reason that survives splitting on ',' and stripping: non-empty, unpadded and comma-free. */
  predicate PlainReason(r: string)
  {
    r != "" && Trimmed(r) && ',' !in r
  }

  /** A reason the document text can carry and the parser give back unchanged. */
  predicate ReasonText(r: string)
  {
    PlainReason(r) && !Contains(r, FlaggedReasonsMarker)
  }

  /**
   * A label that joined reasons cannot fake: it has no comma, does not start
   * with a space, and its first and last characters occur nowhere else in it.
   */
  predicate Unforgeable(m: string)
  {
    |m| >= 2 && m[0] != ' ' && ',' !in m &&
    (forall k :: 0 < k < |m| ==> m[k] != m[0]) &&
    (forall k :: 0 <= k < |m| - 1 ==> m[k] != m[|m| - 1])
  }

  lemma MarkerUnforgeable()
    ensures Unforgeable(FlaggedReasonsMarker)
  {
  }

  /** Joined reasons never contain such a label: it would have to sit inside one reason. */
  lemma {:induction false} NoLabelInJoin(rs: seq<string>, m: string)
    requires Unforgeable(m)
    requires forall i :: 0 <= i < |rs| ==> ',' !in rs[i] && !Contains(rs[i], m)
    ensures forall j :: !OccursAt(Join(rs, ", "), m, j)
    decreases |rs|
  {
    if |rs| >= 2 {
      var r := rs[0];
      var rest := Join(rs[1..], ", ");
      var joined := Join(rs, ", ");
      assert joined == r + ", " + rest;
      NoLabelInJoin(rs[1..], m);
      forall j | 0 <= j
        ensures !OccursAt(joined, m, j)
      {
        if j + |m| <= |r| {
          OccursInFront(r, ", " + rest, m, j);
        } else if j >= |r| + 2 {
          assert joined == (r + ", ") + rest;
          OccursInBack(r + ", ", rest, m, j);
        } else if j <= |r| {
          assert joined[|r|] == ',' && m[|r| - j] in m;
          MismatchAt(joined, m, j, |r|);
        } else {
          assert joined[j] == ' ';
          MismatchAt(joined, m, j, j);
        }
      }
    }
  }

  /** Leading spaces alone are stripped away. */
  lemma StripFront(p: string, b: string)
    requires AllSpace(p) && b != [] && Trimmed(b)
    ensures Strip(p + b) == b
  {
    StripPadded(p, b, "");
    assert p + b + "" == p + b;
  }

  /** Cleaning a list of parts cleans its first part, then the rest. */
  lemma CleanPartsCons(head: string, tail: seq<string>)
    ensures CleanParts([head] + tail) == (if Strip(head) != "" then [Strip(head)] else []) + CleanParts(tail)
  {
    var parts := [head] + tail;
    assert parts[0] == head && parts[1..] == tail;
  }

  /** A padded join of two or more reasons: the padded first reason, a comma, then a space and the rest. */
  lemma PaddedJoinFront(p: string, rs: seq<string>)
    requires |rs| >= 2
    ensures p + Join(rs, ", ") == (p + rs[0]) + [','] + (" " + Join(rs[1..], ", "))
  {
    var r0, rest := rs[0], Join(rs[1..], ", ");
    calc {
      p + Join(rs, ", ");
      p + ((r0 + ", ") + rest);
      { assert ", " == [','] + " "; }
      p + ((r0 + ([','] + " ")) + rest);
      { ConcatAssoc(r0, [','], " "); }
      p + (((r0 + [',']) + " ") + rest);
      { ConcatAssoc(r0 + [','], " ", rest); }
      p + ((r0 + [',']) + (" " + rest));
      { ConcatAssoc(p, r0 + [','], " " + rest); }
      (p + (r0 + [','])) + (" " + rest);
      { ConcatAssoc(p, r0, [',']); }
      ((p + r0) + [',']) + (" " + rest);
    }
  }

  /** A part without a comma splits to itself and cleans to its stripped text. */
  lemma CleanSplitLast(head: string, r: string)
    requires ',' !in head && Strip(head) == r && r != ""
    ensures CleanParts(Split(head, ',')) == [r]
  {
    SplitNone(head, ',');
    CleanPartsCons(head, []);
    assert [head] + [] == [head];
  }

  /** The part before the first comma cleans to its stripped text, ahead of what the rest cleans to. */
  lemma CleanSplitFirst(head: string, r: string, rest: string)
    requires ',' !in head && Strip(head) == r && r != ""
    ensures CleanParts(Split(head + [','] + rest, ',')) == [r] + CleanParts(Split(rest, ','))
  {
    SplitAtFirst(head, ',', rest);
    CleanPartsCons(head, Split(rest, ','));
  }

  /** Splitting joined reasons on ',' and stripping each part gives the reasons back, whatever blank prefix they carry. */
  lemma {:induction false} CleanSplitJoin(p: string, rs: seq<string>)
    requires AllSpace(p) && ',' !in p
    requires |rs| > 0 && forall i :: 0 <= i < |rs| ==> PlainReason(rs[i])
    ensures CleanParts(Split(p + Join(rs, ", "), ',')) == rs
    decreases |rs|
  {
    var head := p + rs[0];
    assert PlainReason(rs[0]);
    StripFront(p, rs[0]);
    if |rs| == 1 {
      assert p + Join(rs, ", ") == head;
      CleanSplitLast(head, rs[0]);
    } else {
      var rest := Join(rs[1..], ", ");
      PaddedJoinFront(p, rs);
      CleanSplitFirst(head, rs[0], " " + rest);
      assert forall i :: 0 <= i < |rs[1..]| ==> PlainReason(rs[1..][i]) by {
        forall i | 0 <= i < |rs[1..]|
          ensures PlainReason(rs[1..][i])
        {
          assert rs[1..][i] == rs[i + 1];
        }
      }
      CleanSplitJoin(" ", rs[1..]);
      assert rs == [rs[0]] + rs[1..];
    }
  }

  /** No occurrence of the label starts inside `front` and runs into the label itself. */
  lemma NoLabelStraddles(front: string, m: string, tail: string)
    requires Unforgeable(m)
    ensures forall j :: 0 <= j < |front| && j + |m| > |front| ==> !OccursAt(front + m + tail, m, j)
  {
    var body := front + m + tail;
    var k := |front|;
    var n := |m|;
    forall j | 0 <= j < k && j + n > k
      ensures !OccursAt(body, m, j)
    {
      assert body[j + n - 1] == m[j + n - 1 - k];
      MismatchAt(body, m, j, j + n - 1);
    }
  }

  /** After the label and its space, the label can only occur inside a tail that lacks it. */
  lemma NoLabelAfter(front: string, m: string, tail: string)
    requires Unforgeable(m)
    requires forall j :: !OccursAt(tail, m, j)
    ensures forall j :: j > |front| ==> !OccursAt(front + m + " " + tail, m, j)
  {
    var head := front + m + " ";
    var body := head + tail;
    var k := |front|;
    var n := |m|;
    forall j | j > k
      ensures !OccursAt(body, m, j)
    {
      if j < k + n {
        assert body[j] == m[j - k];
        MismatchAt(body, m, j, j);
      } else if j == k + n {
        assert body[j] == ' ';
        MismatchAt(body, m, j, j);
      } else {
        OccursInBack(head, tail, m, j);
      }
    }
  }

  /** What follows the last label, when the label is followed by a space and joined reasons. */
  lemma TextAfterLabel(front: string, m: string, rs: seq<string>)
    requires Unforgeable(m)
    requires forall i :: 0 <= i < |rs| ==> ',' !in rs[i] && !Contains(rs[i], m)
    ensures Contains(front + m + " " + Join(rs, ", "), m)
    ensures LastPiece(front + m + " " + Join(rs, ", "), m) == " " + Join(rs, ", ")
  {
    var joined := Join(rs, ", ");
    var body := front + m + " " + joined;
    var k := |front|;
    NoLabelInJoin(rs, m);
    assert body == front + m + (" " + joined);
    assert body[k..k + |m|] == m;
    ContainsAt(body, m, k);
    NoLabelStraddles(front, m, " " + joined);
    NoLabelAfter(front, m, joined);
    LastPieceAfter(body, m, k);
    assert body[k + |m|..] == " " + joined;
  }

  /** The text after the marker, a space and the joined reasons, parses to exactly those reasons. */
  lemma ReasonsFromTail(rs: seq<string>)
    requires |rs| > 0 && forall i :: 0 <= i < |rs| ==> PlainReason(rs[i])
    ensures CleanParts(Split(Strip(" " + Join(rs, ", ")), ',')) == rs
  {
    JoinedReasonsTrimmed(rs);
    StripPadded(" ", Join(rs, ", "), "");
    assert " " + Join(rs, ", ") + "" == " " + Join(rs, ", ");
    CleanSplitJoin("", rs);
    assert "" + Join(rs, ", ") == Join(rs, ", ");
  }

  /** Joined plain reasons are neither empty nor padded. */
  lemma JoinedReasonsTrimmed(rs: seq<string>)
    requires |rs| > 0 && forall i :: 0 <= i < |rs| ==> PlainReason(rs[i])
    ensures Join(rs, ", ") != [] && Trimmed(Join(rs, ", "))
  {
    JoinEnds(rs, ", ");
  }

  /**
   * Any text that ends with the marker, a space and the joined reasons
   * parses back to exactly those reasons, whatever comes before (even
   * another marker).
   */
  lemma ParseAfterMarker(front: string, rs: seq<string>)
    requires |rs| > 0 && forall i :: 0 <= i < |rs| ==> ReasonText(rs[i])
    ensures ParseReasons(front + FlaggedReasonsMarker + " " + Join(rs, ", ")) == rs
  {
    MarkerUnforgeable();
    TextAfterLabel(front, FlaggedReasonsMarker, rs);
    ReasonsFromTail(rs);
  }

  /** The reasons row ends in the last character of the last reason, which is not a space. */
  lemma ReasonsRowEnds(rs: seq<string>)
    requires |rs| > 0 && forall i :: 0 <= i < |rs| ==> ReasonText(rs[i])
    ensures var row := ReasonsRow(rs); row != [] && !IsSpace(row[|row| - 1])
  {
    var joined := Join(rs, ", ");
    assert ReasonText(rs[0]) && ReasonText(rs[|rs| - 1]);
    JoinEnds(rs, ", ");
    assert ReasonsRow(rs) == (FlaggedReasonsMarker + " ") + joined;
  }

  /** A stripped template whose last row is a reasons row ends in that row. */
  lemma TemplateEndsWithReasons(rows: seq<string>, rs: seq<string>) returns (front: string)
    requires |rows| == 12 && rows[0] != [] && !IsSpace(rows[0][0]) && rows[11] == ReasonsRow(rs)
    requires |rs| > 0 && forall i :: 0 <= i < |rs| ==> ReasonText(rs[i])
    ensures Strip(Template(rows)) == front + FlaggedReasonsMarker + " " + Join(rs, ", ")
  {
    ReasonsRowEnds(rs);
    StrippedTemplate(rows);
    assert rows[..11] == rows[..|rows| - 1];
    front := Join(rows[..11], Edge) + Edge;
    assert front + ReasonsRow(rs) == front + FlaggedReasonsMarker + " " + Join(rs, ", ");
  }

  /** An invoice document's text is its leading rows followed by the reasons row. */
  lemma InvoiceTextEndsWithReasons(item: SourceItem) returns (front: string)
    requires WellFormed(item, "invoice")
    requires |ReasonsOf(item)| > 0 && forall i :: 0 <= i < |ReasonsOf(item)| ==> ReasonText(ReasonsOf(item)[i])
    ensures DocumentOf(item, "invoice").value.pageContent ==
            front + FlaggedReasonsMarker + " " + Join(ReasonsOf(item), ", ")
  {
    InvoiceDocumentText(item);
    var rows := InvoiceRows(item).value;
    assert !IsSpace(rows[0][0]);
    front := TemplateEndsWithReasons(rows, ReasonsOf(item));
  }

  /**
   * Round trip with document construction: the reasons parsed back from an
   * invoice document are exactly the item's `flagged_reasons`, when there is
   * at least one and each is non-empty, comma-free, unpadded and free of the
   * marker.
   */
  lemma ReasonsRoundTrip(item: SourceItem)
    requires WellFormed(item, "invoice")
    requires |ReasonsOf(item)| > 0 && forall i :: 0 <= i < |ReasonsOf(item)| ==> ReasonText(ReasonsOf(item)[i])
    ensures ParseReasons(DocumentOf(item, "invoice").value.pageContent) == ReasonsOf(item)
  {
    var front := InvoiceTextEndsWithReasons(item);
    ParseAfterMarker(front, ReasonsOf(item));
  }

  /** Running two action lists one after the other gathers the evidence of each, in order. */
  lemma {:induction false} GatheredAppend(src: DocSource, query: string, xs: seq<Action>, ys: seq<Action>)
    ensures Gathered(src, query, xs + ys) == Gathered(src, query, xs) + Gathered(src, query, ys)
    decreases |ys|
  {
    if ys == [] {
      assert xs + ys == xs;
    } else {
      var init := ys[..|ys| - 1];
      var last := ys[|ys| - 1];
      assert (xs + ys)[..|xs + ys| - 1] == xs + init;
      assert (xs + ys)[|xs + ys| - 1] == last;
      GatheredAppend(src, query, xs, init);
      ConcatAssoc(Gathered(src, query, xs), Gathered(src, query, init), ActionDocs(src, query, last));
    }
  }

  /**
   * The evidence of a planned query: invoice hits, then PO hits only when an
   * id was found, for a flag query; nothing for an approval; invoice hits then
   * PO hits for a general search.
   */
  lemma PlannedEvidence(src: DocSource, query: string)
    ensures Gathered(src, query, PlanQuery(query).actions) ==
            if MentionsFlag(query) then
              InvoiceDocs(src, query) + (if InvoiceIdIn(query).Some? then PoDocs(src, query) else [])
            else if MentionsApprove(query) then []
            else InvoiceDocs(src, query) + PoDocs(src, query)
  {
    var actions := PlanQuery(query).actions;
    if MentionsFlag(query) && InvoiceIdIn(query).Some? {
      assert actions[..2][..1] == [RetrieveInvoice] && actions[..2] == [RetrieveInvoice, RetrieveMatchingPo];
      assert Gathered(src, query, [RetrieveInvoice]) == InvoiceDocs(src, query);
    } else if MentionsFlag(query) {
      assert actions[..1] == [RetrieveInvoice];
      assert Gathered(src, query, [RetrieveInvoice]) == InvoiceDocs(src, query);
    } else if MentionsApprove(query) {
      assert actions[..0] == [];
    } else {
      assert actions[..0] == [];
    }
  }

  /**
   * With both retrievers raising, the pipeline still answers: no evidence,
   * the approval text or the not-found text, and confidence 0.1.
   */
  lemma RetrieversDown(src: DocSource, query: string)
    requires src.invoices(query, 3).Raised? && src.pos(query, 2).Raised?
    ensures QueryOutcome(src, query).Ok?
    ensures var r := QueryOutcome(src, query).value;
            && r.sources == [] && r.confidence == 0.1
            && r.response == (if Contains(Lower(query), "approve") then ApprovalText else NoDocumentsText)
  {
    PlannedEvidence(src, query);
  }

  /**
   * A completed query's audit list has exactly three records: the plan, the
   * evidence count with the metadata of at most the first three documents,
   * and the response length; the result's sources list every document.
   */
  lemma StagesOfQuery(src: DocSource, query: string)
    requires QueryOutcome(src, query).Ok?
    ensures var r := QueryOutcome(src, query).value;
            var docs := Gathered(src, query, PlanQuery(query).actions);
            && |r.auditLog| == 3
            && r.auditLog[0] == Planning(query, PlanQuery(query)) && r.plan == PlanQuery(query)
            && r.auditLog[1].Retrieval? && r.auditLog[1].retrievedCount == |r.sources| == |docs|
            && |r.auditLog[1].sources| == Min(3, |docs|)
            && (forall i :: 0 <= i < |r.auditLog[1].sources| ==> r.auditLog[1].sources[i] == r.sources[i])
            && (forall i :: 0 <= i < |docs| ==> r.sources[i] == docs[i].metadata)
            && r.auditLog[2] == ResponseGeneration(|r.response|, "rule_based")
  {
  }

  /** The document chosen for the flagged analysis: a flagged invoice if there is one, else the first mention of reasons. */
  lemma FlaggedDocChoice(docs: seq<Document>, invoiceId: Option<string>)
    ensures FlaggedDoc(docs, invoiceId).None? <==>
            forall k :: 0 <= k < |docs| ==> !FlaggedInvoice(docs[k], invoiceId) && !MentionsReasons(docs[k])
    ensures (exists k :: 0 <= k < |docs| && FlaggedInvoice(docs[k], invoiceId)) ==>
              exists i :: 0 <= i < |docs| && FlaggedDoc(docs, invoiceId) == Some(docs[i]) &&
                          FlaggedInvoice(docs[i], invoiceId) && forall k :: 0 <= k < i ==> !FlaggedInvoice(docs[k], invoiceId)
    ensures (forall k :: 0 <= k < |docs| ==> !FlaggedInvoice(docs[k], invoiceId)) && FlaggedDoc(docs, invoiceId).Some? ==>
              exists i :: 0 <= i < |docs| && FlaggedDoc(docs, invoiceId) == Some(docs[i]) &&
                          MentionsReasons(docs[i]) && forall k :: 0 <= k < i ==> !MentionsReasons(docs[k])
  {
    var isFlagged := d => FlaggedInvoice(d, invoiceId);
    assert forall k :: 0 <= k < |docs| ==> isFlagged(docs[k]) == FlaggedInvoice(docs[k], invoiceId);
    match FirstWhere(docs, isFlagged)
    case Some(i) =>
    case None =>
      match FirstWhere(docs, MentionsReasons)
      case Some(i) =>
      case None =>
  }

  /** Whatever branch produced them, parsed reasons are non-empty and unpadded. */
  lemma ParsedReasonsClean(content: string)
    ensures forall i :: 0 <= i < |ParseReasons(content)| ==>
              ParseReasons(content)[i] != "" && Trimmed(ParseReasons(content)[i])
    ensures !Contains(content, FlaggedReasonsMarker) ==> |ParseReasons(content)| >= 1
  {
  }

  /**
   * The response ladder: with evidence, "flagged" wins over "approve", which
   * wins over the general summary; without evidence only "approve" matters.
   * Only the general summary can raise.
   */
  lemma ResponseLadder(query: string, docs: seq<Document>)
    ensures |docs| > 0 && Contains(Lower(query), "flagged") ==>
              ResponseLocal(query, docs) == Ok(FlaggedResponse(docs, InvoiceIdIn(query)))
    ensures Contains(Lower(query), "approve") && !(|docs| > 0 && Contains(Lower(query), "flagged")) ==>
              ResponseLocal(query, docs) == Ok(ApprovalText)
    ensures ResponseLocal(query, docs).Raised? ==>
              |docs| > 0 && !Contains(Lower(query), "flagged") && !Contains(Lower(query), "approve") &&
              ResponseLocal(query, docs) == GeneralResponse(query, docs)
  {
  }

  /**
   * A query that says "flag" but not "flagged" is planned as a flag query,
   * yet its response is never the flagged analysis: it is the approval text
   * or the general summary.
   */
  lemma BareFlagSkipsAnalysis(src: DocSource, query: string)
    requires Contains(Lower(query), "flag") && !Contains(Lower(query), "flagged") && !Contains(Lower(query), "approve")
    ensures ExplainFlagging in PlanQuery(query).actions
    ensures var docs := Gathered(src, query, PlanQuery(query).actions);
            |docs| > 0 ==> ResponseLocal(query, docs) == GeneralResponse(query, docs)
  {
    FlagBranchActions(query);
  }

  /** The overall confidence is one of four levels, and 0.1 exactly when there is no evidence. */
  lemma ConfidenceLevels(response: string, docs: seq<Document>)
    ensures var c := AssessConfidence(response, docs);
            (c == 0.1 || c == 0.85 || c == 0.7 || c == 0.3) && (c == 0.1 <==> |docs| == 0)
    ensures |docs| > 0 && |docs| < 3 && response != "" && !Contains(response, "No relevant documents") ==>
              AssessConfidence(response, docs) == 0.7
  {
  }

  /** The general summary raises exactly when one of the first five documents has a type that is not a string. */
  lemma GeneralFailsOnTypes(query: string, docs: seq<Document>)
    ensures GeneralResponse(query, docs).Ok? <==>
            forall i :: 0 <= i < Min(5, |docs|) ==> GetOr(docs[i].metadata, "type", Str("document")).Str?
  {
    var shown := Enumerate(Shown(docs));
    forall i | 0 <= i < |shown|
      ensures Summary(shown[i]).Ok? <==> GetOr(docs[i].metadata, "type", Str("document")).Str?
    {
      assert shown[i] == (i, docs[i]);
    }
  }

  /**
   * The general summary lists the first five documents at most, each on its
   * own line in order, and reports the full count.
   */
  lemma GeneralListsFirstFive(query: string, docs: seq<Document>)
    ensures GeneralResponse(query, docs).Ok? ==>
              exists lines: seq<string> ::
                && |lines| == Min(5, |docs|)
                && GeneralResponse(query, docs).value == GeneralText(query, |docs|, lines)
                && forall i: nat :: i < |lines| ==> Summary((i, docs[i])) == Ok(lines[i])
  {
    var shown := Enumerate(Shown(docs));
    var r := MapReply(Summary, shown);
    if r.Ok? {
      var lines := r.value;
      assert GeneralResponse(query, docs).value == GeneralText(query, |docs|, lines);
      forall i: nat | i < |lines|
        ensures Summary((i, docs[i])) == Ok(lines[i])
      {
        assert shown[i] == (i, docs[i]);
      }
    }
  }

  /** A listed document without an id is named `doc_{i+1}`, its position counted from 1. */
  lemma SummaryDefaultId(i: nat, doc: Document)
    requires "id" !in doc.metadata && GetOr(doc.metadata, "type", Str("document")).Str?
    ensures Summary((i, doc)).Ok? && Contains(Summary((i, doc)).value, "doc_" + NatText(i + 1))
  {
    var front := SummaryHead(GetOr(doc.metadata, "type", Str("document")).s);
    var id := "doc_" + NatText(i + 1);
    var entry := (i, doc);
    assert entry.0 + 1 == i + 1 && entry.1 == doc;
    assert Show(GetOr(doc.metadata, "id", Str(id))) == id;
    assert Summary(entry) == Ok(front + id + SummaryTail(doc.metadata));
    ContainsMiddle(front, id, SummaryTail(doc.metadata));
  }
}
