/**
 * The verification engine (app/agents/verifier.py): scores an invoice
 * against an optional PO with fixed integer rules, clamps the confidence,
 * derives auto-approval and one recommendation, absorbs any exception into
 * the result, and writes a start and a completion audit entry.
 *
 * The language-model analysis is an input: `analysis` is the result
 * dictionary after `verification_result.update(analysis)`, or the exception
 * the call raised.
 */
module Verifier {
  import opened Common
  import opened Text
  import opened Schemas
  import opened Audit

  const AgentName := "ResultVerifier"
  const ConfidenceThreshold := 70

  const VendorMismatch := "Vendor name mismatch"
  const PoNumberMismatch := "PO number mismatch"
  const NoPoFound := "No matching purchase order found"
  const MissingPoReference := "Missing PO reference"
  const ManualReview := "Manual review required"
  const SecondaryApproval := "Secondary approval recommended"
  const SuitableForAuto := "Suitable for auto-approval"
  const ZeroDivision := "float division by zero"

  /** The result dictionary before the analysis is merged in. */
  const Baseline := VerificationResult(0, 0, [], [], [], false, None)

  /** `rec.get("vendor_name", "").lower()`: only a string has `lower`. */
  function VendorOf(rec: Record): Reply<string>
  {
    match GetOr(rec, "vendor_name", Str(""))
    case Str(s) => Ok(Lower(s))
    case v => Raised("'" + TypeName(v) + "' object has no attribute 'lower'")
  }

  /** `float(rec.get("amount", 0))` in cents. A string amount is not parsed. */
  function AmountOf(rec: Record): Reply<int>
  {
    var v := GetOr(rec, "amount", Int(0));
    match NumberCents(v)
    case Some(c) => Ok(c)
    case None =>
      if v.Str? then Raised("could not convert string to float: '" + v.s + "'")
      else Raised("float() argument must be a string or a real number, not '" + TypeName(v) + "'")
  }

  function Abs(x: int): nat
  {
    if x < 0 then -x else x
  }

  /** `abs(invoice_amount - po_amount) / po_amount > 0.05` on exact values; defined only for a non-zero PO amount. */
  predicate QuotientExceeds(invoiceCents: int, poCents: int)
    requires poCents != 0
  {
    (Abs(invoiceCents - poCents) as real) / (poCents as real) > 0.05
  }

  /**
   * The amount rule in whole cents: a zero PO amount raises; otherwise the
   * rule fires when the PO amount is positive and twenty times the
   * difference exceeds it. AmountRule proves this is QuotientExceeds.
   */
  function AmountExceeds(invoiceCents: int, poCents: int): Reply<bool>
  {
    if poCents == 0 then Raised(ZeroDivision)
    else Ok(poCents > 0 && 20 * Abs(invoiceCents - poCents) > poCents)
  }

  function AmountVariance(invoiceCents: int, poCents: int): string
  {
    "Amount variance: Invoice $" + CentsText(invoiceCents) + ", PO $" + CentsText(poCents)
  }

  /** Adds one issue and moves the score by `delta`. */
  function WithIssue(v: VerificationResult, issue: string, delta: int): VerificationResult
  {
    v.(issues := v.issues + [issue], matchScore := v.matchScore + delta)
  }

  /** How the body of the `try` ends: it runs to the end, or an exception leaves the partial result. */
  datatype Outcome = Done(result: VerificationResult) | Failed(partial: VerificationResult, message: string)

  /** The vendor check: lower-cased vendor names that differ cost 20. */
  function VendorCheck(a: VerificationResult, invoice: Record, po: Record): Outcome
  {
    match VendorOf(invoice)
    case Raised(m) => Failed(a, m)
    case Ok(iv) =>
      match VendorOf(po)
      case Raised(m) => Failed(a, m)
      case Ok(pv) => Done(if iv != pv then WithIssue(a, VendorMismatch, -20) else a)
  }

  /** The amount check: a difference of more than 5% of the PO amount costs 15. */
  function AmountCheck(a: VerificationResult, invoice: Record, po: Record): Outcome
  {
    match AmountOf(invoice)
    case Raised(m) => Failed(a, m)
    case Ok(ia) =>
      match AmountOf(po)
      case Raised(m) => Failed(a, m)
      case Ok(pa) =>
        match AmountExceeds(ia, pa)
        case Raised(m) => Failed(a, m)
        case Ok(exceeds) => Done(if exceeds then WithIssue(a, AmountVariance(ia, pa), -15) else a)
  }

  /** The PO number check: PO numbers that differ under Python equality cost 25. */
  function NumberCheck(a: VerificationResult, invoice: Record, po: Record): VerificationResult
  {
    if !PyEq(Get(invoice, "po_number"), Get(po, "po_number")) then WithIssue(a, PoNumberMismatch, -25) else a
  }

  /** The three PO checks, in their order: vendor (-20), amount (-15), PO number (-25). */
  function PoChecks(a: VerificationResult, invoice: Record, po: Record): Outcome
  {
    match VendorCheck(a, invoice, po)
    case Failed(partial, m) => Failed(partial, m)
    case Done(a1) =>
      match AmountCheck(a1, invoice, po)
      case Failed(partial, m) => Failed(partial, m)
      case Done(a2) => Done(NumberCheck(a2, invoice, po))
  }

  /** The rule-based checks: the PO checks when a PO is given, a flat score of 30 otherwise. */
  function Checks(a: VerificationResult, invoice: Record, po: Option<Record>): Outcome
  {
    if Present(po) then PoChecks(a, invoice, po.value)
    else Done(a.(issues := a.issues + [NoPoFound], matchScore := 30,
                 flaggingReasons := a.flaggingReasons + [MissingPoReference]))
  }

  function Clamp(x: int): int
  {
    if x < 0 then 0 else if x > 100 then 100 else x
  }

  /** The recommendation band of a confidence. */
  function Band(confidence: int): string
  {
    if confidence < 50 then ManualReview
    else if confidence < 80 then SecondaryApproval
    else SuitableForAuto
  }

  /** The flagging, confidence, auto-approval and recommendation steps after the checks. */
  function Decide(v: VerificationResult): VerificationResult
  {
    var flagged := if v.matchScore < 70 then v.flaggingReasons + v.issues else v.flaggingReasons;
    var confidence := Clamp(v.matchScore - |v.issues| * 5);
    v.(flaggingReasons := flagged,
       confidence := confidence,
       autoApprovable := confidence >= ConfidenceThreshold && |v.issues| <= 1,
       recommendations := v.recommendations + [Band(confidence)])
  }

  /** The `except` block: record the error, zero the confidence, add the error as an issue. */
  function Absorb(v: VerificationResult, message: string): VerificationResult
  {
    v.(error := Some(message), confidence := 0, issues := v.issues + ["Verification error: " + message])
  }

  /** What `verify_invoice_po_match` returns. */
  function Verification(invoice: Record, po: Option<Record>, analysis: Reply<VerificationResult>): VerificationResult
  {
    match analysis
    case Raised(m) => Absorb(Baseline, m)
    case Ok(a) =>
      match Checks(a, invoice, po)
      case Failed(partial, m) => Absorb(partial, m)
      case Done(checked) => Decide(checked)
  }

  /** The `try` body runs to its end. */
  predicate NormalPath(invoice: Record, po: Option<Record>, analysis: Reply<VerificationResult>)
  {
    analysis.Ok? && Checks(analysis.value, invoice, po).Done?
  }

  /** The `input_data` both audit entries carry. */
  function AuditInput(invoice: Record, po: Option<Record>): Record
  {
    map["invoice_id" := Get(invoice, "invoice_id"),
        "po_number" := if Present(po) then Get(po.value, "po_number") else Null]
  }

  /** `should_escalate`. */
  predicate ShouldEscalate(confidence: int, issues: seq<string>)
  {
    confidence < ConfidenceThreshold || |issues| > 2
  }

  class ResultVerifier {
    const log: AuditLogger

    constructor (log: AuditLogger)
      ensures this.log == log
    {
      this.log := log;
    }

    /**
     * `verify_invoice_po_match`: mutates the result step by step; an
     * exception inside the `try` leaves the checks and jumps to the
     * `except` block. Writes exactly two audit entries.
     */
    method VerifyInvoicePoMatch(invoice: Record, po: Option<Record>, analysis: Reply<VerificationResult>)
      returns (result: VerificationResult)
      modifies log
      ensures result == Verification(invoice, po, analysis)
      ensures log.file == Appended(Appended(old(log.file),
                                            AuditEntry(AgentName, "verify_match", AuditInput(invoice, po), NoOutput, 0)),
                                   AuditEntry(AgentName, "verify_complete", AuditInput(invoice, po),
                                              Verified(result), result.confidence))
    {
      var input := AuditInput(invoice, po);
      log.LogAction(AgentName, "verify_match", input, NoOutput, 0);
      result := Baseline;
      var raised: Option<string> := None;
      if analysis.Raised? {
        raised := Some(analysis.message);
      } else {
        result := analysis.value;
        if Present(po) {
          result, raised := RunPoChecks(result, invoice, po.value);
        } else {
          result := result.(issues := result.issues + [NoPoFound], matchScore := 30);
          result := result.(flaggingReasons := result.flaggingReasons + [MissingPoReference]);
        }
        if raised.None? {
          result := ApplyDecisions(result);
        }
      }
      if raised.Some? {
        result := result.(error := raised, confidence := 0,
                          issues := result.issues + ["Verification error: " + raised.value]);
      }
      log.LogAction(AgentName, "verify_complete", input, Verified(result), result.confidence);
    }

    /** The flagging, confidence, auto-approval and recommendation steps, one assignment each. */
    method ApplyDecisions(v: VerificationResult) returns (result: VerificationResult)
      ensures result == Decide(v)
    {
      result := v;
      if result.matchScore < 70 {
        result := result.(flaggingReasons := result.flaggingReasons + result.issues);
      }
      result := result.(confidence := Clamp(result.matchScore - |result.issues| * 5));
      result := result.(autoApprovable := result.confidence >= ConfidenceThreshold && |result.issues| <= 1);
      if result.confidence < 50 {
        result := result.(recommendations := result.recommendations + [ManualReview]);
      } else if result.confidence < 80 {
        result := result.(recommendations := result.recommendations + [SecondaryApproval]);
      } else {
        result := result.(recommendations := result.recommendations + [SuitableForAuto]);
      }
    }

    /**
     * The PO checks of the `try` body, in order; `raised` is the exception
     * that stops them, and `result` what they had done by then.
     */
    method RunPoChecks(v: VerificationResult, invoice: Record, po: Record)
      returns (result: VerificationResult, raised: Option<string>)
      ensures PoChecks(v, invoice, po) == if raised.None? then Done(result) else Failed(result, raised.value)
    {
      result, raised := RunVendorCheck(v, invoice, po);
      if raised.None? {
        result, raised := RunAmountCheck(result, invoice, po);
        if raised.None? && !PyEq(Get(invoice, "po_number"), Get(po, "po_number")) {
          result := result.(issues := result.issues + [PoNumberMismatch], matchScore := result.matchScore - 25);
        }
      }
    }

    method RunVendorCheck(v: VerificationResult, invoice: Record, po: Record)
      returns (result: VerificationResult, raised: Option<string>)
      ensures VendorCheck(v, invoice, po) == if raised.None? then Done(result) else Failed(result, raised.value)
    {
      result := v;
      raised := None;
      var invoiceVendor := VendorOf(invoice);
      if invoiceVendor.Raised? { return result, Some(invoiceVendor.message); }
      var poVendor := VendorOf(po);
      if poVendor.Raised? { return result, Some(poVendor.message); }
      if invoiceVendor.value != poVendor.value {
        result := result.(issues := result.issues + [VendorMismatch], matchScore := result.matchScore - 20);
      }
    }

    method RunAmountCheck(v: VerificationResult, invoice: Record, po: Record)
      returns (result: VerificationResult, raised: Option<string>)
      ensures AmountCheck(v, invoice, po) == if raised.None? then Done(result) else Failed(result, raised.value)
    {
      result := v;
      raised := None;
      var invoiceAmount := AmountOf(invoice);
      if invoiceAmount.Raised? { return result, Some(invoiceAmount.message); }
      var poAmount := AmountOf(po);
      if poAmount.Raised? { return result, Some(poAmount.message); }
      var exceeds := AmountExceeds(invoiceAmount.value, poAmount.value);
      if exceeds.Raised? { return result, Some(exceeds.message); }
      if exceeds.value {
        result := result.(issues := result.issues + [AmountVariance(invoiceAmount.value, poAmount.value)],
                          matchScore := result.matchScore - 15);
      }
    }
  }

  // ------------------------------------------------------------ properties

  /** The confidence always ends in [0, 100], and is 0 whenever an exception was absorbed. */
  lemma ConfidenceBounded(invoice: Record, po: Option<Record>, analysis: Reply<VerificationResult>)
    ensures 0 <= Verification(invoice, po, analysis).confidence <= 100
    ensures !NormalPath(invoice, po, analysis) ==> Verification(invoice, po, analysis).confidence == 0
  {
  }

  /**
   * On the normal path: the confidence is the clamped score minus five per
   * issue, auto-approval is exactly "confidence at least 70 and at most one
   * issue", exactly one recommendation is added, by band, and every issue is
   * added to the flagging reasons exactly when the score is below 70.
   */
  lemma NormalPathDecisions(invoice: Record, po: Option<Record>, analysis: Reply<VerificationResult>)
    requires NormalPath(invoice, po, analysis)
    ensures var checked := Checks(analysis.value, invoice, po).result;
            var r := Verification(invoice, po, analysis);
            && r.matchScore == checked.matchScore
            && r.issues == checked.issues
            && r.confidence == (if checked.matchScore - 5 * |checked.issues| < 0 then 0
                                else if checked.matchScore - 5 * |checked.issues| > 100 then 100
                                else checked.matchScore - 5 * |checked.issues|)
            && (r.autoApprovable <==> r.confidence >= 70 && |r.issues| <= 1)
            && |r.recommendations| == |checked.recommendations| + 1
            && r.recommendations[..|checked.recommendations|] == checked.recommendations
            && (r.confidence < 50 ==> r.recommendations[|checked.recommendations|] == "Manual review required")
            && (50 <= r.confidence < 80 ==> r.recommendations[|checked.recommendations|] == "Secondary approval recommended")
            && (80 <= r.confidence ==> r.recommendations[|checked.recommendations|] == "Suitable for auto-approval")
            && r.flaggingReasons == checked.flaggingReasons + (if checked.matchScore < 70 then checked.issues else [])
            && r.error == checked.error
  {
  }

  /** An auto-approvable result on the normal path is never escalated. */
  lemma AutoApprovalIsNotEscalated(invoice: Record, po: Option<Record>, analysis: Reply<VerificationResult>)
    requires NormalPath(invoice, po, analysis)
    requires Verification(invoice, po, analysis).autoApprovable
    ensures !ShouldEscalate(Verification(invoice, po, analysis).confidence, Verification(invoice, po, analysis).issues)
  {
  }

  /**
   * With a PO, the checks run in a fixed order and each adds its issue and
   * its penalty: vendor (case-insensitive, -20), amount (-15), PO number (-25).
   */
  lemma PoChecksInOrder(a: VerificationResult, invoice: Record, po: Record)
    requires PoChecks(a, invoice, po).Done?
    ensures VendorOf(invoice).Ok? && VendorOf(po).Ok? && AmountOf(invoice).Ok? && AmountOf(po).Ok?
    ensures AmountExceeds(AmountOf(invoice).value, AmountOf(po).value).Ok?
    ensures var vendorBad := VendorOf(invoice).value != VendorOf(po).value;
            var amountBad := AmountExceeds(AmountOf(invoice).value, AmountOf(po).value).value;
            var numberBad := !PyEq(Get(invoice, "po_number"), Get(po, "po_number"));
            var r := PoChecks(a, invoice, po).result;
            && r.issues == a.issues + (if vendorBad then ["Vendor name mismatch"] else [])
                                    + (if amountBad then [AmountVariance(AmountOf(invoice).value, AmountOf(po).value)] else [])
                                    + (if numberBad then ["PO number mismatch"] else [])
            && r.matchScore == a.matchScore - (if vendorBad then 20 else 0) - (if amountBad then 15 else 0)
                                            - (if numberBad then 25 else 0)
            && r.flaggingReasons == a.flaggingReasons && r.recommendations == a.recommendations
  {
    var iv := VendorOf(invoice).value;
    var pv := VendorOf(po).value;
    var a1 := if iv != pv then WithIssue(a, VendorMismatch, -20) else a;
    var ia := AmountOf(invoice).value;
    var pa := AmountOf(po).value;
    var exceeds := AmountExceeds(ia, pa).value;
    var a2 := if exceeds then WithIssue(a1, AmountVariance(ia, pa), -15) else a1;
    assert a2.issues == a.issues + (if iv != pv then [VendorMismatch] else [])
                                 + (if exceeds then [AmountVariance(ia, pa)] else []);
  }

  /** Vendors compare without regard to letter case. */
  lemma VendorCaseIgnored(invoice: Record, po: Record, s: string)
    requires "vendor_name" in invoice && "vendor_name" in po
    requires invoice["vendor_name"] == Str(s) && po["vendor_name"] == Str(Upper(s))
    ensures VendorOf(invoice) == VendorOf(po)
  {
    assert Lower(Upper(s)) == Lower(s);
  }

  /**
   * The amount rule on exact values: for a positive PO amount it fires
   * exactly when the difference is more than 5% (so exactly 5% passes); a
   * negative PO amount never fires; a zero PO amount raises.
   */
  lemma AmountRule(invoiceCents: int, poCents: int)
    ensures poCents == 0 <==> AmountExceeds(invoiceCents, poCents).Raised?
    ensures poCents != 0 ==> AmountExceeds(invoiceCents, poCents) == Ok(QuotientExceeds(invoiceCents, poCents))
    ensures poCents < 0 ==> AmountExceeds(invoiceCents, poCents) == Ok(false)
  {
    if poCents != 0 {
      var d := Abs(invoiceCents - poCents) as real;
      var p := poCents as real;
      if poCents > 0 {
        QuotientAbove(d, p, 0.05);
        assert d > 0.05 * p <==> 20 * Abs(invoiceCents - poCents) > poCents;
      } else {
        QuotientOfNegative(d, p);
      }
    }
  }

  lemma QuotientAbove(d: real, p: real, c: real)
    requires p > 0.0
    ensures d / p > c <==> d > c * p
  {
    var q := d / p;
    assert q * p == d;
    if q > c {
      assert (q - c) * p > 0.0;
    } else {
      assert (c - q) * p >= 0.0;
    }
  }

  lemma QuotientOfNegative(d: real, p: real)
    requires d >= 0.0 && p < 0.0
    ensures d / p <= 0.0
  {
    var q := d / p;
    assert q * p == d;
  }

  /** Without a PO: score 30, the missing-PO issue, and the missing-PO reason before the issues. */
  lemma NoPoOutcome(invoice: Record, po: Option<Record>, a: VerificationResult)
    requires !Present(po)
    ensures NormalPath(invoice, po, Ok(a))
    ensures Verification(invoice, po, Ok(a)).matchScore == 30
    ensures Verification(invoice, po, Ok(a)).issues == a.issues + ["No matching purchase order found"]
    ensures Verification(invoice, po, Ok(a)).flaggingReasons ==
            a.flaggingReasons + ["Missing PO reference"] + a.issues + ["No matching purchase order found"]
  {
  }

  /** With an empty analysis and no PO the result is fixed: one issue, two reasons, confidence 25, manual review. */
  lemma BaselineWithoutPo(invoice: Record, po: Option<Record>)
    requires !Present(po)
    ensures Verification(invoice, po, Ok(Baseline)) ==
            VerificationResult(30, 25, ["No matching purchase order found"], ["Manual review required"],
                               ["Missing PO reference", "No matching purchase order found"], false, None)
  {
  }

  /** With an empty analysis and a PO, the score cannot be positive: confidence 0, never auto-approvable, manual review. */
  lemma BaselineWithPoIsRejected(invoice: Record, po: Option<Record>)
    requires Present(po) && NormalPath(invoice, po, Ok(Baseline))
    ensures Verification(invoice, po, Ok(Baseline)).confidence == 0
    ensures !Verification(invoice, po, Ok(Baseline)).autoApprovable
    ensures Verification(invoice, po, Ok(Baseline)).recommendations == ["Manual review required"]
  {
    PoChecksInOrder(Baseline, invoice, po.value);
  }

  /** With a zero PO amount the checks stop at the amount rule, after the vendor check. */
  lemma ZeroPoAmountChecks(invoice: Record, po: Record, a: VerificationResult) returns (a1: VerificationResult)
    requires VendorOf(invoice).Ok? && VendorOf(po).Ok? && AmountOf(invoice).Ok? && AmountOf(po) == Ok(0)
    ensures a1 == if VendorOf(invoice).value != VendorOf(po).value then WithIssue(a, VendorMismatch, -20) else a
    ensures PoChecks(a, invoice, po) == Failed(a1, ZeroDivision)
  {
    a1 := if VendorOf(invoice).value != VendorOf(po).value then WithIssue(a, VendorMismatch, -20) else a;
    assert VendorCheck(a, invoice, po) == Done(a1);
    assert AmountCheck(a1, invoice, po) == Failed(a1, ZeroDivision);
  }

  /**
   * A PO amount of 0 is absorbed: the error is recorded, the confidence is
   * 0, the error issue follows the vendor issue, and nothing else of the
   * analysis changes (no recommendation is added, auto-approval is left as
   * the analysis had it).
   */
  lemma ZeroPoAmountIsAbsorbed(invoice: Record, po: Record, a: VerificationResult)
    requires po != map[]
    requires VendorOf(invoice).Ok? && VendorOf(po).Ok? && AmountOf(invoice).Ok? && AmountOf(po) == Ok(0)
    ensures var r := Verification(invoice, Some(po), Ok(a));
            var vendorIssue := if VendorOf(invoice).value != VendorOf(po).value then ["Vendor name mismatch"] else [];
            && r.error == Some(ZeroDivision)
            && r.confidence == 0
            && r.issues == a.issues + vendorIssue + ["Verification error: " + ZeroDivision]
            && r.recommendations == a.recommendations
            && r.autoApprovable == a.autoApprovable
            && r.flaggingReasons == a.flaggingReasons
  {
    var a1 := ZeroPoAmountChecks(invoice, po, a);
    assert Present(Some(po));
    assert Verification(invoice, Some(po), Ok(a)) == Absorb(a1, ZeroDivision);
  }

  /**
   * The `except` block does not clear `auto_approvable`: an analysis that
   * says auto-approvable, checked against a PO of amount 0, ends
   * auto-approvable with confidence 0, and so is escalated.
   */
  lemma AbsorbedKeepsAutoApproval(invoice: Record, po: Record, a: VerificationResult)
    requires po != map[] && a.autoApprovable
    requires VendorOf(invoice).Ok? && VendorOf(po).Ok? && AmountOf(invoice).Ok? && AmountOf(po) == Ok(0)
    ensures var r := Verification(invoice, Some(po), Ok(a));
            r.autoApprovable && r.confidence == 0 && ShouldEscalate(r.confidence, r.issues)
  {
    ZeroPoAmountIsAbsorbed(invoice, po, a);
  }

  /** When the analysis call itself raises, the result is the empty one plus the error. */
  lemma AnalysisFailureIsAbsorbed(invoice: Record, po: Option<Record>, message: string)
    ensures Verification(invoice, po, Raised(message)) ==
            VerificationResult(0, 0, ["Verification error: " + message], [], [], false, Some(message))
  {
  }
}
