/**
 * Document construction (`VectorStoreManager.load_documents_from_json` in
 * app/data/vector_store.py): each JSON item becomes one document whose text
 * is an indented template and whose metadata is five fields of the item.
 * Reading the file is left out: the items are the parsed JSON array.
 */
module VectorStore {
  import opened Common
  import opened Text
  import opened Schemas

  /**
   * One element of the JSON array: its scalar fields, its `line_items` list
   * (None when the key is missing) and its `flagged_reasons` list (None when
   * the key is missing).
   */
  datatype SourceItem = SourceItem(fields: Record, lineItems: Option<seq<Record>>, flaggedReasons: Option<seq<string>>)

  /** The indentation the triple-quoted template carries on every line. */
  const Indent := "                "

  /** The first and the last line of the template: a line break, then the indentation. */
  const Edge := "\n" + Indent

  /** The label in front of the comma-separated reasons of an invoice. */
  const FlaggedReasonsMarker := "Flagged Reasons:"

  /** `{item[key]}` in an f-string: KeyError for a missing key. */
  function ShowField(rec: Record, key: string): (r: Reply<string>)
    ensures r.Ok? <==> key in rec
  {
    var v :- Field(rec, key);
    Ok(Show(v))
  }

  /** Every key of `keys` is in `rec`. */
  predicate HasKeys(rec: Record, keys: seq<string>)
  {
    forall i :: 0 <= i < |keys| ==> keys[i] in rec
  }

  /** The fields `keys` of `rec`, rendered in order; the first missing one raises. */
  function FieldTexts(rec: Record, keys: seq<string>): (r: Reply<seq<string>>)
    ensures r.Ok? <==> HasKeys(rec, keys)
    ensures r.Ok? ==> |r.value| == |keys| && forall i :: 0 <= i < |keys| ==> keys[i] in rec && r.value[i] == Show(rec[keys[i]])
    decreases |keys|
  {
    if keys == [] then Ok([])
    else
      var first :- ShowField(rec, keys[0]);
      var rest :- FieldTexts(rec, keys[1..]);
      assert forall i :: 1 <= i < |keys| ==> keys[i] == keys[1..][i - 1];
      Ok([first] + rest)
  }

  /** The scalar keys the invoice template reads, in template order (`po_number` is read with a default). */
  const InvoiceKeys := ["invoice_id", "vendor", "total_amount", "currency", "status", "invoice_date", "due_date"]
  const InvoiceLineKeys := ["description", "quantity", "unit_price"]
  /** The scalar keys the PO template reads before its line items; `approver` comes after them. */
  const PoKeys := ["po_number", "department", "vendor", "total_amount", "currency", "status",
                   "created_date", "delivery_date"]
  const PoLineKeys := ["description", "quantity_ordered", "quantity_received"]

  /** One line item as the invoice or the PO layout renders it. */
  function LineItemText(li: Record, invoiceLayout: bool): (r: Reply<string>)
    ensures r.Ok? <==> HasKeys(li, if invoiceLayout then InvoiceLineKeys else PoLineKeys)
  {
    var v :- FieldTexts(li, if invoiceLayout then InvoiceLineKeys else PoLineKeys);
    if invoiceLayout then Ok("- " + v[0] + ": Qty " + v[1] + " @ $" + v[2])
    else Ok("- " + v[0] + ": Ordered " + v[1] + ", Received " + v[2])
  }

  /** The list comprehension over `item['line_items']`: the first item that raises stops it. */
  function LineItemTexts(lis: seq<Record>, invoiceLayout: bool): (r: Reply<seq<string>>)
    ensures r.Ok? <==> forall i :: 0 <= i < |lis| ==> LineItemText(lis[i], invoiceLayout).Ok?
    decreases |lis|
  {
    if lis == [] then Ok([])
    else
      var first :- LineItemText(lis[0], invoiceLayout);
      var rest :- LineItemTexts(lis[1..], invoiceLayout);
      assert forall i :: 1 <= i < |lis| ==> lis[i] == lis[1..][i - 1];
      Ok([first] + rest)
  }

  /** `item['line_items']` rendered: KeyError when the list or a key of one of its items is missing. */
  function LineItemsText(item: SourceItem, invoiceLayout: bool): (r: Reply<string>)
    ensures r.Ok? <==> item.lineItems.Some? &&
                       forall i :: 0 <= i < |item.lineItems.value| ==>
                         HasKeys(item.lineItems.value[i], if invoiceLayout then InvoiceLineKeys else PoLineKeys)
  {
    if item.lineItems.None? then Raised("'line_items'")
    else
      var lines :- LineItemTexts(item.lineItems.value, invoiceLayout);
      Ok(Join(lines, "\n"))
  }

  /** `item.get('flagged_reasons', [])`. */
  function ReasonsOf(item: SourceItem): seq<string>
  {
    if item.flaggedReasons.Some? then item.flaggedReasons.value else []
  }

  /** The last row of the invoice template. */
  function ReasonsRow(reasons: seq<string>): string
  {
    FlaggedReasonsMarker + " " + Join(reasons, ", ")
  }

  /** The rows of the invoice template, one per line of the triple-quoted string. */
  function InvoiceRows(item: SourceItem): (r: Reply<seq<string>>)
    ensures r.Ok? <==> HasKeys(item.fields, InvoiceKeys) && LineItemsText(item, true).Ok?
    ensures r.Ok? ==> |r.value| == 12 && r.value[11] == ReasonsRow(ReasonsOf(item))
    ensures r.Ok? ==> |r.value[0]| > 0 && r.value[0][0] == 'I'
  {
    var v :- FieldTexts(item.fields, InvoiceKeys);
    var lineItems :- LineItemsText(item, true);
    var po := Show(GetOr(item.fields, "po_number", Str("N/A")));
    Ok(["Invoice ID: " + v[0], "PO Number: " + po, "Vendor: " + v[1],
        "Total Amount: " + v[2] + " " + v[3], "Status: " + v[4],
        "Invoice Date: " + v[5], "Due Date: " + v[6], "",
        "Line Items:", lineItems, "",
        ReasonsRow(ReasonsOf(item))])
  }

  /** The rows of the PO template. */
  function PoRows(item: SourceItem): (r: Reply<seq<string>>)
    ensures r.Ok? <==> HasKeys(item.fields, PoKeys) && LineItemsText(item, false).Ok? && "approver" in item.fields
    ensures r.Ok? ==> |r.value| == 12
  {
    var v :- FieldTexts(item.fields, PoKeys);
    var lineItems :- LineItemsText(item, false);
    var approver :- ShowField(item.fields, "approver");
    Ok(["PO Number: " + v[0], "Department: " + v[1], "Vendor: " + v[2],
        "Total Amount: " + v[3] + " " + v[4], "Status: " + v[5],
        "Created Date: " + v[6], "Delivery Date: " + v[7], "",
        "Line Items:", lineItems, "",
        "Approver: " + approver])
  }

  /**
   * The triple-quoted string: it opens with a line break, every row sits on
   * its own indented line, and the closing quotes stand on an indented line.
   */
  function Template(rows: seq<string>): string
  {
    Edge + Join(rows, Edge) + Edge
  }

  /** The key the metadata `id` comes from. */
  function IdKey(docType: string): string
  {
    if docType == "invoice" then "invoice_id" else "po_number"
  }

  /** The metadata dictionary of one document; the template has already read all three keys. */
  function MetadataOf(item: SourceItem, docType: string): (m: Record)
    requires "vendor" in item.fields && "total_amount" in item.fields && "status" in item.fields
    ensures m.Keys == {"type", "id", "vendor", "amount", "status"}
    ensures m["type"] == Str(docType) && m["id"] == Get(item.fields, IdKey(docType))
    ensures m["vendor"] == item.fields["vendor"] && m["amount"] == item.fields["total_amount"]
    ensures m["status"] == item.fields["status"]
  {
    var f := item.fields;
    map["type" := Str(docType), "id" := Get(f, IdKey(docType)),
        "vendor" := f["vendor"], "amount" := f["total_amount"], "status" := f["status"]]
  }

  /** The raw template of either layout; every type other than "invoice" gets the PO layout. */
  function ContentOf(item: SourceItem, docType: string): (r: Reply<string>)
    ensures r.Ok? <==> WellFormed(item, docType)
  {
    var rows :- if docType == "invoice" then InvoiceRows(item) else PoRows(item);
    Ok(Template(rows))
  }

  /** An item the template can render: every key it reads is there. */
  predicate WellFormed(item: SourceItem, docType: string)
  {
    var invoiceLayout := docType == "invoice";
    HasKeys(item.fields, if invoiceLayout then InvoiceKeys else PoKeys) &&
    (invoiceLayout || "approver" in item.fields) &&
    item.lineItems.Some? &&
    forall i :: 0 <= i < |item.lineItems.value| ==>
      HasKeys(item.lineItems.value[i], if invoiceLayout then InvoiceLineKeys else PoLineKeys)
  }

  /**
   * The document built from one item: the stripped template and the
   * metadata. It raises (a KeyError) exactly when a key the template reads
   * is missing, and its text never starts or ends with whitespace.
   */
  function DocumentOf(item: SourceItem, docType: string): (r: Reply<Document>)
    ensures r.Ok? <==> WellFormed(item, docType)
    ensures r.Ok? ==> Trimmed(r.value.pageContent)
  {
    var content :- ContentOf(item, docType);
    assert "vendor" in InvoiceKeys && "total_amount" in InvoiceKeys && "status" in InvoiceKeys;
    assert "vendor" in PoKeys && "total_amount" in PoKeys && "status" in PoKeys;
    Ok(Document(Strip(content), MetadataOf(item, docType)))
  }

  /**
   * The documents of `items` in order, or the first KeyError: one document
   * per item, the i-th built from the i-th item.
   */
  function DocumentsOf(items: seq<SourceItem>, docType: string): (r: Reply<seq<Document>>)
    ensures r.Ok? <==> forall i :: 0 <= i < |items| ==> WellFormed(items[i], docType)
    ensures r.Ok? ==> |r.value| == |items| &&
                      forall i :: 0 <= i < |items| ==> r.value[i] == DocumentOf(items[i], docType).value
  {
    MapReply(item => DocumentOf(item, docType), items)
  }

  /** `load_documents_from_json` on the parsed array: the loop that appends one document per item, or stops at the first KeyError. */
  method LoadDocuments(items: seq<SourceItem>, docType: string) returns (r: Reply<seq<Document>>)
    ensures r == DocumentsOf(items, docType)
  {
    r := MapEach(item => DocumentOf(item, docType), items);
  }

  // ------------------------------------------------------------ properties

  /** The metadata of a document: its type, its id field, and vendor, amount and status from the item. */
  lemma DocumentMetadata(item: SourceItem, docType: string)
    requires WellFormed(item, docType)
    ensures DocumentOf(item, docType).value.metadata["type"] == Str(docType)
    ensures DocumentOf(item, docType).value.metadata["id"] ==
            if docType == "invoice" then Get(item.fields, "invoice_id") else Get(item.fields, "po_number")
    ensures DocumentOf(item, docType).value.metadata["vendor"] == item.fields["vendor"]
    ensures DocumentOf(item, docType).value.metadata["amount"] == item.fields["total_amount"]
    ensures DocumentOf(item, docType).value.metadata["status"] == item.fields["status"]
  {
    MetadataKeysPresent(item, docType);
    var content := ContentOf(item, docType).value;
    assert DocumentOf(item, docType) == Ok(Document(Strip(content), MetadataOf(item, docType)));
  }

  /** Either layout reads vendor, total amount and status. */
  lemma MetadataKeysPresent(item: SourceItem, docType: string)
    requires WellFormed(item, docType)
    ensures "vendor" in item.fields && "total_amount" in item.fields && "status" in item.fields
  {
    if docType == "invoice" {
      assert InvoiceKeys[1] == "vendor" && InvoiceKeys[2] == "total_amount" && InvoiceKeys[4] == "status";
    } else {
      assert PoKeys[2] == "vendor" && PoKeys[3] == "total_amount" && PoKeys[5] == "status";
    }
  }

  /** The text of an invoice document is its stripped template. */
  lemma InvoiceDocumentText(item: SourceItem)
    requires WellFormed(item, "invoice")
    ensures InvoiceRows(item).Ok?
    ensures DocumentOf(item, "invoice").value.pageContent == Strip(Template(InvoiceRows(item).value))
  {
  }

  /** Stripping a template whose rows start and end with text leaves the rows joined by the template's line breaks. */
  lemma StrippedTemplate(rows: seq<string>)
    requires |rows| >= 2 && rows[0] != [] && rows[|rows| - 1] != []
    requires !IsSpace(rows[0][0]) && !IsSpace(rows[|rows| - 1][|rows[|rows| - 1]| - 1])
    ensures Strip(Template(rows)) == Join(rows[..|rows| - 1], Edge) + Edge + rows[|rows| - 1]
  {
    JoinEnds(rows, Edge);
    JoinSnoc(rows, Edge);
    StripPadded(Edge, Join(rows, Edge), Edge);
  }

  /** Any type other than "invoice" gets the PO layout and the PO number as its id. */
  lemma OtherTypesUsePoLayout(item: SourceItem, docType: string)
    requires docType != "invoice"
    ensures DocumentOf(item, docType).Ok? <==> DocumentOf(item, "po").Ok?
    ensures DocumentOf(item, docType).Ok? ==>
              DocumentOf(item, docType).value.pageContent == DocumentOf(item, "po").value.pageContent &&
              DocumentOf(item, docType).value.metadata["id"] == Get(item.fields, "po_number")
  {
  }
}
