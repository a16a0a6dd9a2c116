/**
 * The document retriever (app/agents/retriever.py): a direct lookup by id
 * first, then a similarity search as the fallback; each outcome has a fixed
 * confidence tier, a store exception is recorded in the result, and every
 * call writes a start and a completion audit entry.
 */
module Retriever {
  import opened Common
  import opened Schemas
  import opened Audit

  const AgentName := "DocumentRetriever"

  /** How many hits the fallback search asks for. */
  const SearchSize := 3

  /**
   * The store the retriever consults. Lookups give the document (None or an
   * empty dictionary when there is none); searches give the metadata of the
   * hits, best first. Any of them may raise.
   */
  datatype DocumentStore = DocumentStore(
    invoiceById: string -> Reply<Option<Record>>,
    searchInvoices: (string, nat) -> Reply<seq<Record>>,
    poByNumber: string -> Reply<Option<Record>>,
    searchPos: (string, nat) -> Reply<seq<Record>>)

  /** The result dictionary before anything is found. */
  const NotFound := RetrievalResult(false, None, 0, [], None)

  /** The `except` block: record the error and zero the confidence. */
  function Absorb(r: RetrievalResult, message: string): RetrievalResult
  {
    r.(error := Some(message), confidence := 0)
  }

  /** The search stage: the first hit becomes the document, all hits the search results. */
  function SearchStage(search: Reply<seq<Record>>, tier: int): RetrievalResult
  {
    match search
    case Raised(m) => Absorb(NotFound, m)
    case Ok(hits) => if |hits| > 0 then RetrievalResult(true, Some(hits[0]), tier, hits, None) else NotFound
  }

  /** What `retrieve_invoice` returns. */
  function InvoiceRetrieval(store: DocumentStore, query: string, invoiceId: Option<string>): RetrievalResult
  {
    if Given(invoiceId) then
      match store.invoiceById(invoiceId.value)
      case Raised(m) => Absorb(NotFound, m)
      case Ok(doc) =>
        if Present(doc) then RetrievalResult(true, doc, 95, [], None)
        else SearchStage(store.searchInvoices(query, SearchSize), 80)
    else SearchStage(store.searchInvoices(query, SearchSize), 80)
  }

  /** What `retrieve_po` returns: the search runs only for a non-empty query. */
  function PoRetrieval(store: DocumentStore, poNumber: Option<string>, query: string): RetrievalResult
  {
    if Given(poNumber) then
      match store.poByNumber(poNumber.value)
      case Raised(m) => Absorb(NotFound, m)
      case Ok(doc) =>
        if Present(doc) then RetrievalResult(true, doc, 95, [], None)
        else if query != "" then SearchStage(store.searchPos(query, SearchSize), 75)
        else NotFound
    else if query != "" then SearchStage(store.searchPos(query, SearchSize), 75)
    else NotFound
  }

  function InvoiceInput(query: string, invoiceId: Option<string>): Record
  {
    map["query" := Str(query), "invoice_id" := StrOrNull(invoiceId)]
  }

  function PoInput(poNumber: Option<string>, query: string): Record
  {
    map["po_number" := StrOrNull(poNumber), "query" := Str(query)]
  }

  class DocumentRetriever {
    const store: DocumentStore
    const log: AuditLogger

    constructor (store: DocumentStore, log: AuditLogger)
      ensures this.store == store && this.log == log
    {
      this.store := store;
      this.log := log;
    }

    /** `retrieve_invoice`: updates the result in place through lookup, fallback and `except`. */
    method RetrieveInvoice(query: string, invoiceId: Option<string>) returns (results: RetrievalResult)
      modifies log
      ensures results == InvoiceRetrieval(store, query, invoiceId)
      ensures log.file == Appended(Appended(old(log.file),
                                            AuditEntry(AgentName, "retrieve_invoice", InvoiceInput(query, invoiceId), NoOutput, 0)),
                                   AuditEntry(AgentName, "retrieve_invoice_complete", InvoiceInput(query, invoiceId),
                                              Retrieved(results), results.confidence))
    {
      var input := InvoiceInput(query, invoiceId);
      log.LogAction(AgentName, "retrieve_invoice", input, NoOutput, 0);
      results := NotFound;
      label body: {
        if Given(invoiceId) {
          var invoice := store.invoiceById(invoiceId.value);
          if invoice.Raised? {
            results := Absorb(results, invoice.message);
            break body;
          }
          if Present(invoice.value) {
            results := results.(found := true, doc := invoice.value, confidence := 95);
          }
        }
        if !results.found {
          var search := store.searchInvoices(query, SearchSize);
          if search.Raised? {
            results := Absorb(results, search.message);
            break body;
          }
          if |search.value| > 0 {
            results := results.(found := true, doc := Some(search.value[0]), searchResults := search.value,
                                confidence := 80);
          }
        }
      }
      log.LogAction(AgentName, "retrieve_invoice_complete", input, Retrieved(results), results.confidence);
    }

    /** `retrieve_po`: as `retrieve_invoice`, but the search needs a non-empty query. */
    method RetrievePo(poNumber: Option<string>, query: string) returns (results: RetrievalResult)
      modifies log
      ensures results == PoRetrieval(store, poNumber, query)
      ensures log.file == Appended(Appended(old(log.file),
                                            AuditEntry(AgentName, "retrieve_po", PoInput(poNumber, query), NoOutput, 0)),
                                   AuditEntry(AgentName, "retrieve_po_complete", PoInput(poNumber, query),
                                              Retrieved(results), results.confidence))
    {
      var input := PoInput(poNumber, query);
      log.LogAction(AgentName, "retrieve_po", input, NoOutput, 0);
      results := NotFound;
      label body: {
        if Given(poNumber) {
          var po := store.poByNumber(poNumber.value);
          if po.Raised? {
            results := Absorb(results, po.message);
            break body;
          }
          if Present(po.value) {
            results := results.(found := true, doc := po.value, confidence := 95);
          }
        }
        if !results.found && query != "" {
          var search := store.searchPos(query, SearchSize);
          if search.Raised? {
            results := Absorb(results, search.message);
            break body;
          }
          if |search.value| > 0 {
            results := results.(found := true, doc := Some(search.value[0]), searchResults := search.value,
                                confidence := 75);
          }
        }
      }
      log.LogAction(AgentName, "retrieve_po_complete", input, Retrieved(results), results.confidence);
    }
  }

  // ------------------------------------------------------------ properties

  /**
   * The invoice confidence is one of 0, 95 and 80; a document is found
   * exactly when the confidence is positive; a result that found nothing is
   * the initial record, with at most an error added.
   */
  lemma InvoiceTiers(store: DocumentStore, query: string, invoiceId: Option<string>)
    ensures var r := InvoiceRetrieval(store, query, invoiceId);
            && (r.confidence == 0 || r.confidence == 95 || r.confidence == 80)
            && (r.found <==> r.confidence > 0)
            && (!r.found ==> r.doc.None? && r.searchResults == [])
            && (r.error.Some? ==> !r.found)
  {
  }

  /** The PO confidence is one of 0, 95 and 75, with the same shape as for invoices. */
  lemma PoTiers(store: DocumentStore, poNumber: Option<string>, query: string)
    ensures var r := PoRetrieval(store, poNumber, query);
            && (r.confidence == 0 || r.confidence == 95 || r.confidence == 75)
            && (r.found <==> r.confidence > 0)
            && (!r.found ==> r.doc.None? && r.searchResults == [])
            && (r.error.Some? ==> !r.found)
  {
  }

  /** A direct hit is the answer, with confidence 95, whatever the search would have returned. */
  lemma InvoiceDirectHit(store: DocumentStore, query: string, id: string, doc: Record)
    requires id != "" && doc != map[] && store.invoiceById(id) == Ok(Some(doc))
    ensures InvoiceRetrieval(store, query, Some(id)) == RetrievalResult(true, Some(doc), 95, [], None)
    ensures forall search: (string, nat) -> Reply<seq<Record>> ::
              InvoiceRetrieval(store.(searchInvoices := search), query, Some(id)) ==
              InvoiceRetrieval(store, query, Some(id))
  {
  }

  /** Without an id, or on a miss, the search decides: its first hit with confidence 80. */
  lemma InvoiceSearchFallback(store: DocumentStore, query: string, invoiceId: Option<string>, hits: seq<Record>)
    requires !Given(invoiceId) || store.invoiceById(invoiceId.value) == Ok(None) ||
             store.invoiceById(invoiceId.value) == Ok(Some(map[]))
    requires store.searchInvoices(query, 3) == Ok(hits) && |hits| > 0
    ensures InvoiceRetrieval(store, query, invoiceId) == RetrievalResult(true, Some(hits[0]), 80, hits, None)
  {
  }

  /** A direct PO hit gives confidence 95 without a search. */
  lemma PoDirectHit(store: DocumentStore, number: string, query: string, doc: Record)
    requires number != "" && doc != map[] && store.poByNumber(number) == Ok(Some(doc))
    ensures PoRetrieval(store, Some(number), query) == RetrievalResult(true, Some(doc), 95, [], None)
  {
  }

  /** An empty query never searches for POs: a miss then is simply "not found", with no error. */
  lemma PoEmptyQueryMiss(store: DocumentStore, poNumber: Option<string>)
    requires !Given(poNumber) || store.poByNumber(poNumber.value) == Ok(None) ||
             store.poByNumber(poNumber.value) == Ok(Some(map[]))
    ensures PoRetrieval(store, poNumber, "") == RetrievalResult(false, None, 0, [], None)
    ensures forall search: (string, nat) -> Reply<seq<Record>> ::
              PoRetrieval(store.(searchPos := search), poNumber, "") == PoRetrieval(store, poNumber, "")
  {
  }

  /**
   * Some store call that `retrieve_invoice` makes raises `message`: the
   * lookup by a given id, or the search that follows when no id is given or
   * the lookup finds nothing.
   */
  predicate InvoiceStoreRaises(store: DocumentStore, query: string, invoiceId: Option<string>, message: string)
  {
    if Given(invoiceId) && !(store.invoiceById(invoiceId.value).Ok? && !Present(store.invoiceById(invoiceId.value).value))
    then store.invoiceById(invoiceId.value) == Raised(message)
    else store.searchInvoices(query, SearchSize) == Raised(message)
  }

  /** The same for `retrieve_po`, whose search runs only for a non-empty query. */
  predicate PoStoreRaises(store: DocumentStore, poNumber: Option<string>, query: string, message: string)
  {
    if Given(poNumber) && !(store.poByNumber(poNumber.value).Ok? && !Present(store.poByNumber(poNumber.value).value))
    then store.poByNumber(poNumber.value) == Raised(message)
    else query != "" && store.searchPos(query, SearchSize) == Raised(message)
  }

  /** A store exception never escapes `retrieve_invoice`: it is recorded with confidence 0 and nothing found. */
  lemma InvoiceStoreFailure(store: DocumentStore, query: string, invoiceId: Option<string>, message: string)
    requires InvoiceStoreRaises(store, query, invoiceId, message)
    ensures InvoiceRetrieval(store, query, invoiceId) == RetrievalResult(false, None, 0, [], Some(message))
  {
  }

  /** A store exception never escapes `retrieve_po` either. */
  lemma PoStoreFailure(store: DocumentStore, poNumber: Option<string>, query: string, message: string)
    requires PoStoreRaises(store, poNumber, query, message)
    ensures PoRetrieval(store, poNumber, query) == RetrievalResult(false, None, 0, [], Some(message))
  {
  }

  /** Conversely, an invoice result records an error only when a store call on its path raised it. */
  lemma InvoiceErrorFromStore(store: DocumentStore, query: string, invoiceId: Option<string>)
    ensures var r := InvoiceRetrieval(store, query, invoiceId);
            r.error.Some? ==> InvoiceStoreRaises(store, query, invoiceId, r.error.value)
  {
  }

  /** Conversely, a PO result records an error only when a store call on its path raised it. */
  lemma PoErrorFromStore(store: DocumentStore, poNumber: Option<string>, query: string)
    ensures var r := PoRetrieval(store, poNumber, query);
            r.error.Some? ==> PoStoreRaises(store, poNumber, query, r.error.value)
  {
  }
}
