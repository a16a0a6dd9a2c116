/**
 * The API side of the system (app/main.py): the two id extractors, the
 * answer template, and the step sequence of the `/query` handler, which
 * gathers evidence from the retriever and the verifier, writes the answer,
 * and turns any exception into one audit entry and one HTTP 500 error.
 */
module MainApi {
  import opened Common
  import opened Text
  import opened Schemas
  import opened Audit
  import Retriever
  import Verifier

  // ------------------------------------------------------------- id extraction

  /**
   * The lower-cased text `s` has, at position i, `tag` followed either by a
   * digit or by one '-' or '_' and then a digit: a match of `tag[-_]?(\d+)`.
   */
  predicate TokenAt(s: string, tag: string, i: int)
  {
    0 <= i && i + |tag| <= |s| && s[i..i + |tag|] == tag &&
    ((i + |tag| < |s| && IsDigit(s[i + |tag|])) ||
     (i + |tag| + 1 < |s| && (s[i + |tag|] == '-' || s[i + |tag|] == '_') && IsDigit(s[i + |tag| + 1])))
  }

  /** The digits `(\d+)` captures for the match at i. */
  function TokenDigits(s: string, tag: string, i: int): string
    requires TokenAt(s, tag, i)
  {
    if IsDigit(s[i + |tag|]) then DigitRun(s[i + |tag|..]) else DigitRun(s[i + |tag| + 1..])
  }

  /** `re.search(tag + r'[-_]?(\d+)', query.lower())`, its group 1 put after `prefix`. */
  function ExtractTagged(query: string, tag: string, prefix: string): Option<string>
  {
    match SearchTagged(Lower(query), tag, true)
    case None => None
    case Some(digits) => Some(prefix + digits)
  }

  /** `extract_invoice_id`. */
  function ExtractInvoiceId(query: string): Option<string>
  {
    ExtractTagged(query, "inv", "INV-")
  }

  /** `extract_po_number`. */
  function ExtractPoNumber(query: string): Option<string>
  {
    ExtractTagged(query, "po", "PO-")
  }

  lemma TagMatchIsToken(s: string, tag: string, i: nat)
    requires i <= |s|
    ensures TagDigitsAt(s, i, tag, true).Some? <==> TokenAt(s, tag, i)
    ensures TokenAt(s, tag, i) ==> TagDigitsAt(s, i, tag, true) == Some(TokenDigits(s, tag, i))
  {
  }

  /**
   * Nothing is extracted exactly when the lower-cased query holds no match;
   * otherwise the result is the prefix and the whole digit run of the
   * leftmost match.
   */
  lemma ExtractedIsFirstToken(query: string, tag: string, prefix: string)
    ensures ExtractTagged(query, tag, prefix).None? <==> forall i :: !TokenAt(Lower(query), tag, i)
    ensures ExtractTagged(query, tag, prefix).Some? ==>
              exists i :: TokenAt(Lower(query), tag, i) &&
                          (forall k :: 0 <= k < i ==> !TokenAt(Lower(query), tag, k)) &&
                          ExtractTagged(query, tag, prefix).value == prefix + TokenDigits(Lower(query), tag, i)
  {
    var s := Lower(query);
    forall i | 0 <= i <= |s| {
      TagMatchIsToken(s, tag, i);
    }
    match FirstTagMatch(s, tag, true, 0)
    case None =>
    case Some(i) =>
      assert TokenAt(s, tag, i);
  }

  /** The extracted id starts with the prefix and ends in a non-empty run of digits. */
  lemma ExtractedShape(query: string, tag: string, prefix: string)
    ensures ExtractTagged(query, tag, prefix).Some? ==>
              var r := ExtractTagged(query, tag, prefix).value;
              |r| > |prefix| && r[..|prefix|] == prefix && AllDigits(r[|prefix|..])
  {
    match SearchTagged(Lower(query), tag, true)
    case None =>
    case Some(digits) =>
      assert (prefix + digits)[|prefix|..] == digits;
  }

  /**
   * Extracting from an extracted id gives the id back, for a tag whose
   * upper-case spelling followed by '-' is the prefix.
   */
  lemma {:induction false} ExtractAgain(tag: string, prefix: string, digits: string)
    requires tag != [] && Lower(prefix) == tag + "-" && AllDigits(digits) && digits != []
    ensures ExtractTagged(prefix + digits, tag, prefix) == Some(prefix + digits)
  {
    var s := Lower(prefix + digits);
    LowerOfDigits(digits);
    assert s == Lower(prefix) + Lower(digits);
    assert s == tag + "-" + digits;
    assert s[..|tag|] == tag;
    assert s[|tag| + 1..] == digits + [];
    DigitRunOfDigits(digits, []);
    assert TagDigitsAt(s, 0, tag, true) == Some(digits);
  }

  /** `extract_invoice_id` is idempotent. */
  lemma InvoiceIdIdempotent(query: string)
    ensures ExtractInvoiceId(query).Some? ==>
              ExtractInvoiceId(ExtractInvoiceId(query).value) == ExtractInvoiceId(query)
  {
    ExtractedShape(query, "inv", "INV-");
    if ExtractInvoiceId(query).Some? {
      var r := ExtractInvoiceId(query).value;
      assert r == "INV-" + r[4..];
      assert Lower("INV-") == "inv-";
      ExtractAgain("inv", "INV-", r[4..]);
    }
  }

  /** `extract_po_number` is idempotent. */
  lemma PoNumberIdempotent(query: string)
    ensures ExtractPoNumber(query).Some? ==>
              ExtractPoNumber(ExtractPoNumber(query).value) == ExtractPoNumber(query)
  {
    ExtractedShape(query, "po", "PO-");
    if ExtractPoNumber(query).Some? {
      var r := ExtractPoNumber(query).value;
      assert r == "PO-" + r[3..];
      assert Lower("PO-") == "po-";
      ExtractAgain("po", "PO-", r[3..]);
    }
  }

  /** There is no word boundary: the "po" inside "repo12" is a PO number. */
  lemma RepoIsPoNumber()
    ensures ExtractPoNumber("repo12") == Some("PO-12")
  {
    var s := Lower("repo12");
    assert s == "repo12";
    assert TagDigitsAt(s, 0, "po", true).None? && TagDigitsAt(s, 1, "po", true).None?;
    assert s[4..] == "12";
    assert DigitRun(s[4..]) == "12";
    assert TagDigitsAt(s, 2, "po", true) == Some("12");
    assert FirstTagMatch(s, "po", true, 1) == Some(2);
    assert FirstTagMatch(s, "po", true, 0) == Some(2);
    assert SearchTagged(s, "po", true) == Some("12");
    assert "PO-" + "12" == "PO-12";
  }

  // ----------------------------------------------------------------- evidence

  /** One item of `response_data["evidence"]`; the constructor is its "type". */
  datatype Evidence =
    | InvoiceEvidence(invoice: Option<Record>, confidence: int)
    | PoEvidence(po: Option<Record>, confidence: int)
    | VerificationEvidence(verification: VerificationResult, confidence: int)

  function Kind(e: Evidence): string
  {
    match e
    case InvoiceEvidence(_, _) => "invoice"
    case PoEvidence(_, _) => "purchase_order"
    case VerificationEvidence(_, _) => "verification"
  }

  function Kinds(evidence: seq<Evidence>): (r: seq<string>)
    ensures |r| == |evidence| && forall i :: 0 <= i < |evidence| ==> r[i] == Kind(evidence[i])
  {
    seq(|evidence|, i requires 0 <= i < |evidence| => Kind(evidence[i]))
  }

  /** The index of the first verification evidence: what the `for ... break` search finds. */
  function FirstVerificationIndex(evidence: seq<Evidence>): (r: Option<nat>)
    ensures r.Some? ==> r.value < |evidence| && evidence[r.value].VerificationEvidence?
    ensures r.Some? ==> forall k :: 0 <= k < r.value ==> !evidence[k].VerificationEvidence?
    ensures r.None? ==> forall k :: 0 <= k < |evidence| ==> !evidence[k].VerificationEvidence?
    decreases |evidence|
  {
    if evidence == [] then None
    else if evidence[0].VerificationEvidence? then Some(0)
    else match FirstVerificationIndex(evidence[1..])
      case None => None
      case Some(i) => Some(i + 1)
  }

  // --------------------------------------------------------------- the answer

  const NotFoundText :=
    "I couldn't find the specified invoice in our system. Please check the invoice number and try again."

  const BulletMark := "\U{2022} "

  /** The line `f"{i}. {reason}\n"`. */
  function ReasonLine(n: int, reason: string): string
  {
    IntText(n) + ". " + reason + "\n"
  }

  /** The reasons numbered from `first` on, one line each. */
  function Numbered(reasons: seq<string>, first: int): string
    decreases |reasons|
  {
    if reasons == [] then "" else ReasonLine(first, reasons[0]) + Numbered(reasons[1..], first + 1)
  }

  /** Numbering two lists one after the other numbers their concatenation. */
  lemma {:induction false} NumberedConcat(a: seq<string>, b: seq<string>, first: int)
    ensures Numbered(a + b, first) == Numbered(a, first) + Numbered(b, first + |a|)
    decreases |a|
  {
    if a == [] {
      assert a + b == b;
    } else {
      var line := ReasonLine(first, a[0]);
      assert (a + b)[0] == a[0];
      assert (a + b)[1..] == a[1..] + b;
      assert Numbered(a + b, first) == line + Numbered(a[1..] + b, first + 1);
      NumberedConcat(a[1..], b, first + 1);
      ConcatAssoc(line, Numbered(a[1..], first + 1), Numbered(b, first + |a|));
    }
  }

  /** Numbering one more reason adds its line at the end. */
  lemma NumberedSnoc(a: seq<string>, x: string, first: int)
    ensures Numbered(a + [x], first) == Numbered(a, first) + ReasonLine(first + |a|, x)
  {
    NumberedConcat(a, [x], first);
    assert [x][1..] == [];
  }

  /** The reason at index i is on the (i+1)-th line, numbered first + i, after all earlier reasons. */
  lemma NumberedAt(reasons: seq<string>, first: int, i: int)
    requires 0 <= i < |reasons|
    ensures Numbered(reasons, first) ==
            Numbered(reasons[..i], first) +
            (ReasonLine(first + i, reasons[i]) + Numbered(reasons[i + 1..], first + i + 1))
  {
    var front, back := reasons[..i], reasons[i..];
    assert reasons == front + back;
    NumberedConcat(front, back, first);
    assert back[0] == reasons[i] && back[1..] == reasons[i + 1..];
  }

  function FlaggedHeader(id: Value): string
  {
    "Invoice " + Show(id) + " was flagged for the following reasons:\n\n"
  }

  /** The PO comparison block; its f-strings look the keys up in this order. */
  function Comparison(invoice: Record, po: Record): Reply<string>
  {
    var number :- Field(po, "po_number");
    var invoiceAmount :- Field(invoice, "amount");
    var poAmount :- Field(po, "amount");
    var vendor :- Field(invoice, "vendor_name");
    Ok("\nComparison with PO " + Show(number) + ":\n" +
       BulletMark + "Invoice Amount: $" + Show(invoiceAmount) + "\n" +
       BulletMark + "PO Amount: $" + Show(poAmount) + "\n" +
       BulletMark + "Vendor: " + Show(vendor) + "\n")
  }

  /** The answer of the "flagged" branch for a verification record `v`. */
  function FlaggedAnswer(invoice: Record, po: Option<Record>, v: VerificationResult): Reply<string>
  {
    var id :- Field(invoice, "invoice_id");
    var listed := FlaggedHeader(id) + Numbered(v.flaggingReasons, 1);
    var scored := listed + "\nMatch Score: " + IntText(v.matchScore) + "/100\n" +
                  "Confidence Level: " + IntText(v.confidence) + "%\n";
    var compared :- if Present(po) then (var c :- Comparison(invoice, po.value); Ok(scored + c)) else Ok(scored);
    Ok(if v.recommendations != [] then compared + "\nRecommendations: " + Join(v.recommendations, ", ")
       else compared)
  }

  /** The default sentence, with the PO appended when there is one. */
  function DefaultAnswer(invoice: Record, po: Option<Record>): Reply<string>
  {
    var id :- Field(invoice, "invoice_id");
    var vendor :- Field(invoice, "vendor_name");
    var amount :- Field(invoice, "amount");
    var sentence := "Found invoice " + Show(id) + " from " + Show(vendor) + " for $" + Show(amount) + ".";
    if Present(po) then
      var number :- Field(po.value, "po_number");
      Ok(sentence + " It's linked to PO " + Show(number) + ".")
    else Ok(sentence)
  }

  /** `generate_human_readable_response`; a KeyError is `Raised`. */
  function HumanReadable(query: string, invoice: Option<Record>, po: Option<Record>, evidence: seq<Evidence>)
    : Reply<string>
  {
    if !Present(invoice) then Ok(NotFoundText)
    else
      var found := FirstVerificationIndex(evidence);
      if Contains(Lower(query), "flagged") && found.Some? then
        FlaggedAnswer(invoice.value, po, evidence[found.value].verification)
      else DefaultAnswer(invoice.value, po)
  }

  /** `generate_human_readable_response`, building the answer with `+=`. */
  method GenerateHumanReadableResponse(query: string, invoice: Option<Record>, po: Option<Record>,
                                       evidence: seq<Evidence>)
    returns (answer: Reply<string>)
    ensures answer == HumanReadable(query, invoice, po, evidence)
  {
    if !Present(invoice) {
      return Ok(NotFoundText);
    }
    var rec := invoice.value;
    if Contains(Lower(query), "flagged") {
      var verification: Option<VerificationResult> := None;
      var i := 0;
      while i < |evidence|
        invariant 0 <= i <= |evidence|
        invariant forall k :: 0 <= k < i ==> !evidence[k].VerificationEvidence?
        invariant verification.None?
      {
        if evidence[i].VerificationEvidence? {
          verification := Some(evidence[i].verification);
          break;
        }
        i := i + 1;
      }
      if verification.Some? {
        assert FirstVerificationIndex(evidence) == Some(i);
        answer := FlaggedResponse(rec, po, verification.value);
        return;
      }
      assert FirstVerificationIndex(evidence).None?;
    }
    var id :- Field(rec, "invoice_id");
    var vendor :- Field(rec, "vendor_name");
    var amount :- Field(rec, "amount");
    var text := "Found invoice " + Show(id) + " from " + Show(vendor) + " for $" + Show(amount) + ".";
    if Present(po) {
      var number :- Field(po.value, "po_number");
      text := text + " It's linked to PO " + Show(number) + ".";
    }
    answer := Ok(text);
  }

  /** The numbered-reasons loop: one line per reason, counting from 1. */
  method NumberReasons(header: string, reasons: seq<string>) returns (text: string)
    ensures text == header + Numbered(reasons, 1)
  {
    text := header;
    var k := 0;
    while k < |reasons|
      invariant 0 <= k <= |reasons|
      invariant text == header + Numbered(reasons[..k], 1)
    {
      assert reasons[..k + 1] == reasons[..k] + [reasons[k]];
      NumberedSnoc(reasons[..k], reasons[k], 1);
      text := text + ReasonLine(k + 1, reasons[k]);
      k := k + 1;
    }
    assert reasons[..k] == reasons;
  }

  /** The "flagged" branch of `generate_human_readable_response`, with its loop over the reasons. */
  method FlaggedResponse(invoice: Record, po: Option<Record>, v: VerificationResult) returns (answer: Reply<string>)
    ensures answer == FlaggedAnswer(invoice, po, v)
  {
    var id :- Field(invoice, "invoice_id");
    var text := NumberReasons(FlaggedHeader(id), v.flaggingReasons);
    text := text + "\nMatch Score: " + IntText(v.matchScore) + "/100\n";
    text := text + "Confidence Level: " + IntText(v.confidence) + "%\n";
    if Present(po) {
      var number :- Field(po.value, "po_number");
      var invoiceAmount :- Field(invoice, "amount");
      var poAmount :- Field(po.value, "amount");
      var vendor :- Field(invoice, "vendor_name");
      var block := "\nComparison with PO " + Show(number) + ":\n" +
                   BulletMark + "Invoice Amount: $" + Show(invoiceAmount) + "\n" +
                   BulletMark + "PO Amount: $" + Show(poAmount) + "\n" +
                   BulletMark + "Vendor: " + Show(vendor) + "\n";
      assert Comparison(invoice, po.value) == Ok(block);
      text := text + block;
    }
    if v.recommendations != [] {
      text := text + "\nRecommendations: " + Join(v.recommendations, ", ");
    }
    answer := Ok(text);
  }

  // -------------------------------------------------------- the query handler

  const InvoiceStep := "retrieve_invoice_data"
  const PoStep := "retrieve_po_data"
  const AnalyzeStep := "analyze_flagging_reasons"
  const ApiAgent := "MainAPI"
  const RecentLimit := 5

  /** What subscripting None raises. */
  const NoneSubscript := "'NoneType' object is not subscriptable"

  /** `doc[key]` on a document that may be None. */
  function Subscript(doc: Option<Record>, key: string): Reply<Value>
  {
    if doc.None? then Raised(NoneSubscript) else Field(doc.value, key)
  }

  /** `response_data` under construction, with the `invoice_data` and `po_data` locals. */
  datatype Draft = Draft(evidence: seq<Evidence>, sources: seq<string>, matchScore: int, confidence: int,
                         invoice: Option<Record>, po: Option<Record>)

  const Fresh := Draft([], [], 0, 0, None, None)

  datatype QueryResponse = QueryResponse(answer: string, evidence: seq<Evidence>, matchScore: int, confidence: int,
                                         auditLog: seq<AuditEntry>, sources: seq<string>)

  datatype HttpReply = Answered(body: QueryResponse) | HttpError(status: int, detail: string)

  /** The reply, and the audit entries written while computing it, in order. */
  datatype Handled = Handled(reply: HttpReply, written: seq<AuditEntry>)

  /** The invoice step after `retrieve_invoice` returned `r`. */
  function WithInvoice(d: Draft, r: RetrievalResult): Reply<Draft>
  {
    if !r.found then Ok(d)
    else
      var id :- Subscript(r.doc, "invoice_id");
      Ok(d.(invoice := r.doc, evidence := d.evidence + [InvoiceEvidence(r.doc, r.confidence)],
            sources := d.sources + ["Invoice " + Show(id)]))
  }

  /** The PO step after `retrieve_po` returned `r`. */
  function WithPo(d: Draft, r: RetrievalResult): Reply<Draft>
  {
    if !r.found then Ok(d)
    else
      var number :- Subscript(r.doc, "po_number");
      Ok(d.(po := r.doc, evidence := d.evidence + [PoEvidence(r.doc, r.confidence)],
            sources := d.sources + ["PO " + Show(number)]))
  }

  /** The verification step: copy the score and confidence, add the evidence. */
  function WithVerification(d: Draft, v: VerificationResult): Draft
  {
    d.(matchScore := v.matchScore, confidence := v.confidence,
       evidence := d.evidence + [VerificationEvidence(v, v.confidence)])
  }

  /** The entries `retrieve_invoice` writes. */
  function InvoiceTrail(query: string, invoiceId: Option<string>, r: RetrievalResult): seq<AuditEntry>
  {
    var input := Retriever.InvoiceInput(query, invoiceId);
    [AuditEntry(Retriever.AgentName, "retrieve_invoice", input, NoOutput, 0),
     AuditEntry(Retriever.AgentName, "retrieve_invoice_complete", input, Retrieved(r), r.confidence)]
  }

  /** The entries `retrieve_po` writes. */
  function PoTrail(poNumber: Option<string>, query: string, r: RetrievalResult): seq<AuditEntry>
  {
    var input := Retriever.PoInput(poNumber, query);
    [AuditEntry(Retriever.AgentName, "retrieve_po", input, NoOutput, 0),
     AuditEntry(Retriever.AgentName, "retrieve_po_complete", input, Retrieved(r), r.confidence)]
  }

  /** The entries `verify_invoice_po_match` writes. */
  function VerificationTrail(invoice: Record, po: Option<Record>, v: VerificationResult): seq<AuditEntry>
  {
    var input := Verifier.AuditInput(invoice, po);
    [AuditEntry(Verifier.AgentName, "verify_match", input, NoOutput, 0),
     AuditEntry(Verifier.AgentName, "verify_complete", input, Verified(v), v.confidence)]
  }

  /** The entry the `except` block writes. */
  function ErrorEntry(query: string, session: string, message: string): AuditEntry
  {
    AuditEntry(ApiAgent, "process_query_error", map["query" := Str(query), "session_id" := Str(session)],
               ErrorOutput(message), 0)
  }

  /** The `except` block: one more entry, and a 500 carrying the message. */
  function Failure(written: seq<AuditEntry>, query: string, session: string, message: string): Handled
  {
    Handled(HttpError(500, "Processing error: " + message), written + [ErrorEntry(query, session, message)])
  }

  /** The draft after the retrieval steps, and the entries written by then. */
  datatype Gathering = Gathering(draft: Reply<Draft>, written: seq<AuditEntry>)

  /** Step 2, invoice part: `retrieve_invoice` runs when the plan asks for it. */
  function InvoiceStage(store: Retriever.DocumentStore, query: string, steps: seq<string>): Gathering
  {
    if InvoiceStep !in steps then Gathering(Ok(Fresh), [])
    else
      var invoiceId := ExtractInvoiceId(query);
      var r := Retriever.InvoiceRetrieval(store, query, invoiceId);
      Gathering(WithInvoice(Fresh, r), InvoiceTrail(query, invoiceId, r))
  }

  /** Step 2, PO part: skipped once an exception was raised. */
  function PoStage(store: Retriever.DocumentStore, query: string, steps: seq<string>, g: Gathering): Gathering
  {
    if g.draft.Raised? || PoStep !in steps then g
    else
      var poNumber := ExtractPoNumber(query);
      var r := Retriever.PoRetrieval(store, poNumber, query);
      Gathering(WithPo(g.draft.value, r), g.written + PoTrail(poNumber, query, r))
  }

  /** Whether step 3 runs: `invoice_data` is truthy and the plan asks for the analysis. */
  predicate VerificationRuns(d: Draft, steps: seq<string>)
  {
    Present(d.invoice) && AnalyzeStep in steps
  }

  /** Step 3: the draft after the verification, and the entries written by then. */
  function VerifyStage(analysis: Reply<VerificationResult>, steps: seq<string>, d: Draft, written: seq<AuditEntry>)
    : (Draft, seq<AuditEntry>)
  {
    if VerificationRuns(d, steps) then
      var v := Verifier.Verification(d.invoice.value, d.po, analysis);
      (WithVerification(d, v), written + VerificationTrail(d.invoice.value, d.po, v))
    else (d, written)
  }

  /** Steps 4 and 5: the answer, then the five most recent audit entries. */
  function Respond(file: Option<seq<Line>>, query: string, session: string, d: Draft, written: seq<AuditEntry>)
    : Handled
  {
    match HumanReadable(query, d.invoice, d.po, d.evidence)
    case Raised(m) => Failure(written, query, session, m)
    case Ok(answer) =>
      match RecentLogs(AppendedAll(file, written), RecentLimit)
      case Raised(m) => Failure(written, query, session, m)
      case Ok(recent) =>
        Handled(Answered(QueryResponse(answer, d.evidence, d.matchScore, d.confidence, recent, d.sources)), written)
  }

  /**
   * The `try` block of the `/query` handler over the store `store`, with the
   * analysis the verifier's LLM call gives, on the log file `file`.
   */
  function Outcome(store: Retriever.DocumentStore, analysis: Reply<VerificationResult>, file: Option<seq<Line>>,
                   query: string, session: string, steps: seq<string>): Handled
  {
    var g := PoStage(store, query, steps, InvoiceStage(store, query, steps));
    if g.draft.Raised? then Failure(g.written, query, session, g.draft.message)
    else
      var (d, written) := VerifyStage(analysis, steps, g.draft.value, g.written);
      Respond(file, query, session, d, written)
  }

  /** The session the handler uses: the request's, or a fresh uuid when it has none. */
  function SessionOf(requested: Option<string>, generated: string): string
  {
    if Given(requested) then requested.value else generated
  }

  class QueryApi {
    /** None while the system is not initialised. */
    const retriever: Option<Retriever.DocumentRetriever>
    const verifier: Verifier.ResultVerifier
    const log: AuditLogger

    constructor (retriever: Option<Retriever.DocumentRetriever>, verifier: Verifier.ResultVerifier, log: AuditLogger)
      ensures this.retriever == retriever && this.verifier == verifier && this.log == log
    {
      this.retriever := retriever;
      this.verifier := verifier;
      this.log := log;
    }

    /** The agents write to the same audit logger the handler reads. */
    predicate SharedLog()
    {
      (retriever.Some? ==> retriever.value.log == log) && verifier.log == log
    }

    /**
     * `POST /query`. `generatedSession` is the uuid used when the request has
     * no session id; `steps` are the plan's steps; `analysis` is what the
     * verifier's LLM call gives.
     */
    method ProcessQuery(query: string, requestedSession: Option<string>, generatedSession: string,
                        steps: seq<string>, analysis: Reply<VerificationResult>)
      returns (reply: HttpReply)
      requires SharedLog()
      modifies log
      ensures retriever.None? ==> reply == HttpError(503, "System not initialized") && log.file == old(log.file)
      ensures retriever.Some? ==>
                var h := Outcome(retriever.value.store, analysis, old(log.file), query,
                                 SessionOf(requestedSession, generatedSession), steps);
                reply == h.reply && log.file == AppendedAll(old(log.file), h.written)
    {
      if retriever.None? {
        return HttpError(503, "System not initialized");
      }
      var session := if Given(requestedSession) then requestedSession.value else generatedSession;
      ghost var written: seq<AuditEntry>;
      var result: Reply<QueryResponse>;
      result, written := RunSteps(query, session, steps, analysis);
      if result.Raised? {
        log.LogAction(ApiAgent, "process_query_error", map["query" := Str(query), "session_id" := Str(session)],
                      ErrorOutput(result.message), 0);
        AppendedAllConcat(old(log.file), written, [ErrorEntry(query, session, result.message)]);
        reply := HttpError(500, "Processing error: " + result.message);
      } else {
        reply := Answered(result.value);
      }
    }

    /** The `try` block: steps 2 to 5, stopped by the first exception. */
    method RunSteps(query: string, session: string, steps: seq<string>, analysis: Reply<VerificationResult>)
      returns (result: Reply<QueryResponse>, ghost written: seq<AuditEntry>)
      requires SharedLog() && retriever.Some?
      modifies log
      ensures var h := Outcome(retriever.value.store, analysis, old(log.file), query, session, steps);
              log.file == AppendedAll(old(log.file), written) &&
              (if result.Raised? then h == Failure(written, query, session, result.message)
               else h == Handled(Answered(result.value), written))
    {
      var gathered: Reply<Draft>;
      gathered, written := RetrieveInvoiceStep(query, steps);
      if gathered.Raised? {
        return Raised(gathered.message), written;
      }
      gathered, written := RetrievePoStep(query, steps, gathered.value, old(log.file), written);
      if gathered.Raised? {
        return Raised(gathered.message), written;
      }
      var draft;
      draft, written := VerifyStep(steps, analysis, gathered.value, old(log.file), written);
      var answer := GenerateHumanReadableResponse(query, draft.invoice, draft.po, draft.evidence);
      if answer.Raised? {
        return Raised(answer.message), written;
      }
      var recent := log.GetRecentLogs(RecentLimit);
      if recent.Raised? {
        return Raised(recent.message), written;
      }
      result := Ok(QueryResponse(answer.value, draft.evidence, draft.matchScore, draft.confidence, recent.value,
                                 draft.sources));
    }

    /** Step 2, invoice part, updating the draft in place. */
    method RetrieveInvoiceStep(query: string, steps: seq<string>) returns (draft: Reply<Draft>, ghost written: seq<AuditEntry>)
      requires SharedLog() && retriever.Some?
      modifies log
      ensures Gathering(draft, written) == InvoiceStage(retriever.value.store, query, steps)
      ensures log.file == AppendedAll(old(log.file), written)
    {
      var d := Fresh;
      written := [];
      if InvoiceStep in steps {
        var invoiceId := ExtractInvoiceId(query);
        var r := retriever.value.RetrieveInvoice(query, invoiceId);
        written := InvoiceTrail(query, invoiceId, r);
        AppendedTwo(old(log.file), written);
        if r.found {
          var id := Subscript(r.doc, "invoice_id");
          if id.Raised? {
            return Raised(id.message), written;
          }
          d := d.(invoice := r.doc, evidence := d.evidence + [InvoiceEvidence(r.doc, r.confidence)]);
          d := d.(sources := d.sources + ["Invoice " + Show(id.value)]);
        }
      }
      draft := Ok(d);
    }

    /** Step 2, PO part, updating the draft in place. */
    method RetrievePoStep(query: string, steps: seq<string>, d: Draft, ghost start: Option<seq<Line>>,
                          ghost before: seq<AuditEntry>)
      returns (draft: Reply<Draft>, ghost written: seq<AuditEntry>)
      requires SharedLog() && retriever.Some?
      requires log.file == AppendedAll(start, before)
      modifies log
      ensures Gathering(draft, written) == PoStage(retriever.value.store, query, steps, Gathering(Ok(d), before))
      ensures log.file == AppendedAll(start, written)
    {
      var next := d;
      written := before;
      if PoStep in steps {
        var poNumber := ExtractPoNumber(query);
        var r := retriever.value.RetrievePo(poNumber, query);
        AppendedAllConcat(start, before, PoTrail(poNumber, query, r));
        AppendedTwo(AppendedAll(start, before), PoTrail(poNumber, query, r));
        written := before + PoTrail(poNumber, query, r);
        if r.found {
          var number := Subscript(r.doc, "po_number");
          if number.Raised? {
            return Raised(number.message), written;
          }
          next := next.(po := r.doc, evidence := next.evidence + [PoEvidence(r.doc, r.confidence)]);
          next := next.(sources := next.sources + ["PO " + Show(number.value)]);
        }
      }
      draft := Ok(next);
    }

    /** Step 3: verify when an invoice was found and the plan asks for the analysis. */
    method VerifyStep(steps: seq<string>, analysis: Reply<VerificationResult>, d: Draft,
                      ghost start: Option<seq<Line>>, ghost before: seq<AuditEntry>)
      returns (draft: Draft, ghost written: seq<AuditEntry>)
      requires SharedLog()
      requires log.file == AppendedAll(start, before)
      modifies log
      ensures (draft, written) == VerifyStage(analysis, steps, d, before)
      ensures log.file == AppendedAll(start, written)
    {
      draft := d;
      written := before;
      if Present(d.invoice) && AnalyzeStep in steps {
        var v := verifier.VerifyInvoicePoMatch(d.invoice.value, d.po, analysis);
        AppendedAllConcat(start, before, VerificationTrail(d.invoice.value, d.po, v));
        AppendedTwo(AppendedAll(start, before), VerificationTrail(d.invoice.value, d.po, v));
        written := before + VerificationTrail(d.invoice.value, d.po, v);
        draft := draft.(matchScore := v.matchScore, confidence := v.confidence);
        draft := draft.(evidence := draft.evidence + [VerificationEvidence(v, v.confidence)]);
      }
    }
  }

  // ------------------------------------------------------------ properties

  /** Without an invoice the answer is the fixed "couldn't find" message, whatever else is known. */
  lemma NotFoundAnswer(query: string, invoice: Option<Record>, po: Option<Record>, evidence: seq<Evidence>)
    requires !Present(invoice)
    ensures HumanReadable(query, invoice, po, evidence) == Ok(NotFoundText)
  {
  }

  /** The evidence is consulted only for a query that mentions "flagged", and only its first verification. */
  lemma FirstVerificationDecides(query: string, invoice: Option<Record>, po: Option<Record>,
                                 evidence: seq<Evidence>, more: seq<Evidence>)
    requires !Contains(Lower(query), "flagged") ||
             exists i :: 0 <= i < |evidence| && evidence[i].VerificationEvidence?
    ensures HumanReadable(query, invoice, po, evidence + more) == HumanReadable(query, invoice, po, evidence)
  {
    var i := FirstVerificationIndex(evidence);
    if i.Some? {
      var j := FirstVerificationIndex(evidence + more);
      assert (evidence + more)[i.value] == evidence[i.value];
      assert j == i;
    }
  }

  /**
   * The "flagged" answer fails exactly on a missing key: the invoice id, and
   * when a PO is present the PO number, both amounts and the vendor.
   */
  lemma FlaggedAnswerKeys(invoice: Record, po: Option<Record>, v: VerificationResult)
    ensures FlaggedAnswer(invoice, po, v).Ok? <==>
            "invoice_id" in invoice &&
            (Present(po) ==> "po_number" in po.value && "amount" in invoice && "amount" in po.value &&
                             "vendor_name" in invoice)
    ensures "invoice_id" !in invoice ==> FlaggedAnswer(invoice, po, v) == Raised("'invoice_id'")
  {
  }

  /** A "flagged" answer opens with the header and the reasons numbered from 1, in order. */
  lemma FlaggedAnswerLists(invoice: Record, po: Option<Record>, v: VerificationResult)
    requires FlaggedAnswer(invoice, po, v).Ok?
    ensures "invoice_id" in invoice
    ensures var listed := FlaggedHeader(invoice["invoice_id"]) + Numbered(v.flaggingReasons, 1);
            var answer := FlaggedAnswer(invoice, po, v).value;
            |listed| <= |answer| && answer[..|listed|] == listed
  {
    var listed := FlaggedHeader(invoice["invoice_id"]) + Numbered(v.flaggingReasons, 1);
    var scored := listed + "\nMatch Score: " + IntText(v.matchScore) + "/100\n" +
                  "Confidence Level: " + IntText(v.confidence) + "%\n";
    assert listed[..|listed|] == listed;
    PrefixGrows(listed, listed, "\nMatch Score: ");
    PrefixGrows(listed, listed + "\nMatch Score: ", IntText(v.matchScore));
    PrefixGrows(listed, listed + "\nMatch Score: " + IntText(v.matchScore), "/100\n");
    PrefixGrows(listed, listed + "\nMatch Score: " + IntText(v.matchScore) + "/100\n", "Confidence Level: ");
    PrefixGrows(listed, listed + "\nMatch Score: " + IntText(v.matchScore) + "/100\n" + "Confidence Level: ",
                IntText(v.confidence));
    PrefixGrows(listed, listed + "\nMatch Score: " + IntText(v.matchScore) + "/100\n" + "Confidence Level: " +
                        IntText(v.confidence), "%\n");
    var compared := scored;
    if Present(po) {
      var c := Comparison(invoice, po.value).value;
      PrefixGrows(listed, scored, c);
      compared := scored + c;
    }
    if v.recommendations != [] {
      PrefixGrows(listed, compared, "\nRecommendations: ");
      PrefixGrows(listed, compared + "\nRecommendations: ", Join(v.recommendations, ", "));
    }
  }

  /**
   * The default answer fails exactly on a missing invoice id, vendor or
   * amount, or a present PO without a number; a PO only appends the sentence
   * linking it.
   */
  lemma DefaultAnswerLinksPo(invoice: Record, po: Record)
    ensures DefaultAnswer(invoice, None).Ok? <==> "invoice_id" in invoice && "vendor_name" in invoice && "amount" in invoice
    ensures po != map[] ==>
              (DefaultAnswer(invoice, Some(po)).Ok? <==> DefaultAnswer(invoice, None).Ok? && "po_number" in po)
    ensures po != map[] && DefaultAnswer(invoice, Some(po)).Ok? ==>
              DefaultAnswer(invoice, Some(po)).value ==
              DefaultAnswer(invoice, None).value + " It's linked to PO " + Show(po["po_number"]) + "."
    ensures po == map[] ==> DefaultAnswer(invoice, Some(po)) == DefaultAnswer(invoice, None)
  {
  }

  /** The entries written before the `except` block all come from the agents, none from the API. */
  predicate AgentsOnly(written: seq<AuditEntry>)
  {
    forall i :: 0 <= i < |written| ==> written[i].agentName != ApiAgent
  }

  lemma GatherAgentsOnly(store: Retriever.DocumentStore, query: string, steps: seq<string>)
    ensures AgentsOnly(PoStage(store, query, steps, InvoiceStage(store, query, steps)).written)
  {
  }

  lemma VerifyAgentsOnly(analysis: Reply<VerificationResult>, steps: seq<string>, d: Draft, written: seq<AuditEntry>)
    requires AgentsOnly(written)
    ensures AgentsOnly(VerifyStage(analysis, steps, d, written).1)
  {
  }

  /** The reply is a 500 error whose detail is the message of the last entry, the API's only one. */
  predicate ErrorShaped(h: Handled, query: string, session: string)
  {
    && h.reply.HttpError?
    && h.reply.status == 500
    && |h.written| > 0
    && var last := h.written[|h.written| - 1];
    && last.agentName == ApiAgent && last.action == "process_query_error" && last.confidence == 0
    && last.inputData == map["query" := Str(query), "session_id" := Str(session)]
    && last.outputData.ErrorOutput?
    && h.reply.detail == "Processing error: " + last.outputData.error
    && AgentsOnly(h.written[..|h.written| - 1])
  }

  lemma FailureShaped(written: seq<AuditEntry>, query: string, session: string, message: string)
    requires AgentsOnly(written)
    ensures ErrorShaped(Failure(written, query, session, message), query, session)
  {
    var h := Failure(written, query, session, message);
    assert h.written[..|h.written| - 1] == written;
  }

  lemma RespondShaped(file: Option<seq<Line>>, query: string, session: string, d: Draft, written: seq<AuditEntry>)
    requires AgentsOnly(written)
    ensures var h := Respond(file, query, session, d, written);
            (h.reply.HttpError? ==> ErrorShaped(h, query, session)) &&
            (h.reply.Answered? ==> h.written == written && h.reply.body.evidence == d.evidence &&
                                   h.reply.body.sources == d.sources && h.reply.body.matchScore == d.matchScore &&
                                   h.reply.body.confidence == d.confidence)
  {
    match HumanReadable(query, d.invoice, d.po, d.evidence)
    case Raised(m) => FailureShaped(written, query, session, m);
    case Ok(answer) =>
      match RecentLogs(AppendedAll(file, written), RecentLimit)
      case Raised(m) => FailureShaped(written, query, session, m);
      case Ok(recent) =>
  }

  /**
   * Any exception becomes one 500 error and exactly one audit entry, the
   * last one, written by the API with confidence 0 and carrying the
   * message; every other entry of the call was written by an agent.
   */
  lemma ErrorIsOneEntry(store: Retriever.DocumentStore, analysis: Reply<VerificationResult>, file: Option<seq<Line>>,
                        query: string, session: string, steps: seq<string>)
    ensures var h := Outcome(store, analysis, file, query, session, steps);
            (h.reply.HttpError? ==> ErrorShaped(h, query, session)) && (h.reply.Answered? ==> AgentsOnly(h.written))
  {
    var g := PoStage(store, query, steps, InvoiceStage(store, query, steps));
    GatherAgentsOnly(store, query, steps);
    if g.draft.Raised? {
      FailureShaped(g.written, query, session, g.draft.message);
    } else {
      var (d, written) := VerifyStage(analysis, steps, g.draft.value, g.written);
      VerifyAgentsOnly(analysis, steps, g.draft.value, g.written);
      RespondShaped(file, query, session, d, written);
    }
  }

  lemma KindsSnoc(evidence: seq<Evidence>, e: Evidence)
    ensures Kinds(evidence + [e]) == Kinds(evidence) + [Kind(e)]
  {
  }

  /** After the retrieval steps: one evidence and one source per found document, invoice first. */
  lemma GatheredDraft(store: Retriever.DocumentStore, query: string, steps: seq<string>)
    ensures var g := PoStage(store, query, steps, InvoiceStage(store, query, steps));
            var inv := Retriever.InvoiceRetrieval(store, query, ExtractInvoiceId(query));
            var po := Retriever.PoRetrieval(store, ExtractPoNumber(query), query);
            var hasInvoice := InvoiceStep in steps && inv.found;
            var hasPo := PoStep in steps && po.found;
            g.draft.Ok? ==>
              && Kinds(g.draft.value.evidence) ==
                 (if hasInvoice then ["invoice"] else []) + (if hasPo then ["purchase_order"] else [])
              && |g.draft.value.sources| == (if hasInvoice then 1 else 0) + (if hasPo then 1 else 0)
              && g.draft.value.invoice == (if hasInvoice then inv.doc else None)
              && g.draft.value.po == (if hasPo then po.doc else None)
              && g.draft.value.matchScore == 0 && g.draft.value.confidence == 0
  {
    var g1 := InvoiceStage(store, query, steps);
    if g1.draft.Ok? {
      var inv := Retriever.InvoiceRetrieval(store, query, ExtractInvoiceId(query));
      if InvoiceStep in steps && inv.found {
        KindsSnoc([], InvoiceEvidence(inv.doc, inv.confidence));
      }
      var po := Retriever.PoRetrieval(store, ExtractPoNumber(query), query);
      if PoStep in steps && po.found {
        KindsSnoc(g1.draft.value.evidence, PoEvidence(po.doc, po.confidence));
      }
    }
  }

  /**
   * A successful reply carries the evidence in the order invoice, PO,
   * verification, each present exactly when its step was planned and found
   * something (the verification: when a non-empty invoice was found and the
   * plan asks for the analysis); one source per found document; and the
   * verification's score and confidence, or 0 and 0 without one.
   */
  lemma EvidenceInOrder(store: Retriever.DocumentStore, analysis: Reply<VerificationResult>, file: Option<seq<Line>>,
                        query: string, session: string, steps: seq<string>)
    ensures var h := Outcome(store, analysis, file, query, session, steps);
            var inv := Retriever.InvoiceRetrieval(store, query, ExtractInvoiceId(query));
            var po := Retriever.PoRetrieval(store, ExtractPoNumber(query), query);
            var hasInvoice := InvoiceStep in steps && inv.found;
            var hasPo := PoStep in steps && po.found;
            var verified := hasInvoice && Present(inv.doc) && AnalyzeStep in steps;
            h.reply.Answered? ==>
              && Kinds(h.reply.body.evidence) ==
                 (if hasInvoice then ["invoice"] else []) + (if hasPo then ["purchase_order"] else []) +
                 (if verified then ["verification"] else [])
              && |h.reply.body.sources| == (if hasInvoice then 1 else 0) + (if hasPo then 1 else 0)
              && (verified ==>
                    var v := Verifier.Verification(inv.doc.value, if hasPo then po.doc else None, analysis);
                    h.reply.body.matchScore == v.matchScore && h.reply.body.confidence == v.confidence)
              && (!verified ==> h.reply.body.matchScore == 0 && h.reply.body.confidence == 0)
  {
    var g := PoStage(store, query, steps, InvoiceStage(store, query, steps));
    GatheredDraft(store, query, steps);
    AnsweredFromDraft(store, analysis, file, query, session, steps);
    if g.draft.Ok? {
      VerifiedDraft(analysis, steps, g.draft.value, g.written);
    }
  }

  /** An answered query carries the evidence, sources and scores of the verified draft. */
  lemma AnsweredFromDraft(store: Retriever.DocumentStore, analysis: Reply<VerificationResult>, file: Option<seq<Line>>,
                          query: string, session: string, steps: seq<string>)
    ensures var h := Outcome(store, analysis, file, query, session, steps);
            var g := PoStage(store, query, steps, InvoiceStage(store, query, steps));
            h.reply.Answered? ==>
              && g.draft.Ok?
              && var d := VerifyStage(analysis, steps, g.draft.value, g.written).0;
              && h.reply.body.evidence == d.evidence && h.reply.body.sources == d.sources
              && h.reply.body.matchScore == d.matchScore && h.reply.body.confidence == d.confidence
  {
    var g := PoStage(store, query, steps, InvoiceStage(store, query, steps));
    if g.draft.Ok? {
      var (verifiedDraft, written) := VerifyStage(analysis, steps, g.draft.value, g.written);
      GatherAgentsOnly(store, query, steps);
      VerifyAgentsOnly(analysis, steps, g.draft.value, g.written);
      RespondShaped(file, query, session, verifiedDraft, written);
    }
  }

  /** The verification step appends one verification record and takes over its scores. */
  lemma VerifiedDraft(analysis: Reply<VerificationResult>, steps: seq<string>, d: Draft, written: seq<AuditEntry>)
    ensures var d' := VerifyStage(analysis, steps, d, written).0;
            && Kinds(d'.evidence) == Kinds(d.evidence) + (if VerificationRuns(d, steps) then ["verification"] else [])
            && d'.sources == d.sources
            && (VerificationRuns(d, steps) ==>
                  var v := Verifier.Verification(d.invoice.value, d.po, analysis);
                  d'.matchScore == v.matchScore && d'.confidence == v.confidence)
            && (!VerificationRuns(d, steps) ==> d'.matchScore == d.matchScore && d'.confidence == d.confidence)
  {
    if VerificationRuns(d, steps) {
      var v := Verifier.Verification(d.invoice.value, d.po, analysis);
      KindsSnoc(d.evidence, VerificationEvidence(v, v.confidence));
    }
  }

}
