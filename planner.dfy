/**
 * The rule-based query planner (app/agents/planner.py): extracts an
 * `INV-<digits>` id from the query and picks the action list by a fixed
 * priority ladder, flag, then approve, then general search. The timestamp
 * the source stores in the plan is not modelled.
 */
module Planner {
  import opened Common
  import opened Text
  import opened Schemas

  datatype Action = RetrieveInvoice | RetrieveMatchingPo | ExplainFlagging | ApproveInvoice | GeneralSearch

  datatype Plan = Plan(query: string, invoiceId: Option<string>, actions: seq<Action>, reasoning: string)

  /** `re.search(r'INV-(\d+)', query.upper())`, whose group(0) is the id. */
  function InvoiceIdIn(query: string): Option<string>
  {
    match SearchTagged(Upper(query), "INV-", false)
    case None => None
    case Some(digits) => Some("INV-" + digits)
  }

  predicate MentionsFlag(query: string)
  {
    Contains(Lower(query), "flagged") || Contains(Lower(query), "flag")
  }

  predicate MentionsApprove(query: string)
  {
    Contains(Lower(query), "approve")
  }

  /** `QueryPlanner.plan_query`. */
  function PlanQuery(query: string): Plan
  {
    var id := InvoiceIdIn(query);
    if MentionsFlag(query) then
      Plan(query, id,
           [RetrieveInvoice] + (if id.Some? then [RetrieveMatchingPo] else []) + [ExplainFlagging],
           "User asking about flagged invoice " + ShowOption(id))
    else if MentionsApprove(query) then
      Plan(query, id, [ApproveInvoice], "User requesting invoice approval")
    else
      Plan(query, id, [GeneralSearch], "General invoice/PO search query")
  }

  // ------------------------------------------------------------ properties

  /** An upper-cased text holds `INV-` followed by a digit at position i. */
  predicate InvTokenAt(u: string, i: int)
  {
    0 <= i && i + 5 <= |u| && u[i..i + 4] == "INV-" && IsDigit(u[i + 4])
  }

  lemma TagMatchIsInvToken(u: string, i: nat)
    requires i <= |u|
    ensures TagDigitsAt(u, i, "INV-", false).Some? <==> InvTokenAt(u, i)
    ensures InvTokenAt(u, i) ==> TagDigitsAt(u, i, "INV-", false) == Some(DigitRun(u[i + 4..]))
  {
  }

  /**
   * The id is None exactly when the upper-cased query has no `INV-` followed
   * by a digit; otherwise it is `INV-` and the whole digit run at the first
   * such place.
   */
  lemma InvoiceIdIsFirstToken(query: string)
    ensures InvoiceIdIn(query).None? <==> forall i :: !InvTokenAt(Upper(query), i)
    ensures InvoiceIdIn(query).Some? ==>
              exists i :: InvTokenAt(Upper(query), i) &&
                          (forall k :: 0 <= k < i ==> !InvTokenAt(Upper(query), k)) &&
                          InvoiceIdIn(query).value == "INV-" + DigitRun(Upper(query)[i + 4..])
  {
    var u := Upper(query);
    forall i | 0 <= i <= |u| {
      TagMatchIsInvToken(u, i);
    }
    match FirstTagMatch(u, "INV-", false, 0)
    case None =>
    case Some(i) =>
      assert InvTokenAt(u, i);
  }

  /** "flagged" contains "flag", so the first test of the ladder is whether "flag" occurs. */
  lemma FlagTestIsFlagSubstring(query: string)
    ensures MentionsFlag(query) <==> Contains(Lower(query), "flag")
  {
    var l := Lower(query);
    if Contains(l, "flagged") {
      var i := FirstOccurrence(l, "flagged").value;
      assert l[i..i + 4] == l[i..i + 7][..4];
      ContainsAt(l, "flag", i);
    }
  }

  /** The flag branch: retrieve the invoice, its PO only when an id was found, then explain. */
  lemma FlagBranchActions(query: string)
    requires Contains(Lower(query), "flag")
    ensures PlanQuery(query).actions ==
            if InvoiceIdIn(query).Some? then [RetrieveInvoice, RetrieveMatchingPo, ExplainFlagging]
            else [RetrieveInvoice, ExplainFlagging]
    ensures PlanQuery(query).reasoning == "User asking about flagged invoice " + ShowOption(InvoiceIdIn(query))
  {
  }

  /** "flag" outranks "approve": a query containing both is never planned as an approval. */
  lemma FlagOutranksApprove(query: string)
    requires Contains(Lower(query), "flag")
    ensures ApproveInvoice !in PlanQuery(query).actions
  {
  }

  /** Without "flag", an approval query plans exactly one approval and nothing else. */
  lemma ApproveBranchActions(query: string)
    requires !Contains(Lower(query), "flag") && Contains(Lower(query), "approve")
    ensures PlanQuery(query).actions == [ApproveInvoice]
    ensures PlanQuery(query).reasoning == "User requesting invoice approval"
  {
    FlagTestIsFlagSubstring(query);
  }

  /** Any other query falls through to a general search; planning never fails and never plans nothing. */
  lemma PlanShape(query: string)
    ensures 1 <= |PlanQuery(query).actions| <= 3
    ensures !Contains(Lower(query), "flag") && !Contains(Lower(query), "approve") ==>
              PlanQuery(query).actions == [GeneralSearch] &&
              PlanQuery(query).reasoning == "General invoice/PO search query"
    ensures PlanQuery(query).query == query && PlanQuery(query).invoiceId == InvoiceIdIn(query)
  {
    FlagTestIsFlagSubstring(query);
  }

  /** Changing the letter case of a query changes neither its actions, nor its id, nor its reasoning. */
  lemma PlanIgnoresCase(q1: string, q2: string)
    requires Lower(q1) == Lower(q2)
    ensures PlanQuery(q1).actions == PlanQuery(q2).actions
    ensures PlanQuery(q1).invoiceId == PlanQuery(q2).invoiceId
    ensures PlanQuery(q1).reasoning == PlanQuery(q2).reasoning
  {
    UpperOfLower(q1);
    UpperOfLower(q2);
  }
}
