/**
 * The records that flow through the pipeline. The source passes loosely
 * typed dictionaries around; a dictionary of scalars is a `Record` here, and
 * the few structured results (retrieval, verification, audit entries) get a
 * datatype of their own.
 */
module Schemas {
  import opened Common
  import opened Text

  /**
   * A scalar JSON value as it appears in a record. A float is held as an
   * integer number of cents: the data the pipeline reads is rounded to two
   * decimals.
   */
  datatype Value = Null | Bool(b: bool) | Int(i: int) | Float(cents: int) | Str(s: string)

  /** A dictionary of scalars: invoice and PO metadata, audit inputs. */
  type Record = map<string, Value>

  /** `str(v)` as an f-string renders it. */
  function Show(v: Value): string
  {
    match v
    case Null => "None"
    case Bool(b) => if b then "True" else "False"
    case Int(i) => IntText(i)
    case Float(c) => CentsText(c)
    case Str(s) => s
  }

  /** `rec.get(key, default)`. */
  function GetOr(rec: Record, key: string, default: Value): Value
  {
    if key in rec then rec[key] else default
  }

  /** `rec.get(key)`, which gives None for a missing key. */
  function Get(rec: Record, key: string): Value
  {
    GetOr(rec, key, Null)
  }

  /** `rec[key]`, which raises KeyError (rendered as the quoted key) for a missing key. */
  function Field(rec: Record, key: string): (r: Reply<Value>)
    ensures r.Ok? <==> key in rec
    ensures r.Ok? ==> r.value == rec[key]
  {
    if key in rec then Ok(rec[key]) else Raised("'" + key + "'")
  }

  /** Python truthiness of an optional dictionary: present and non-empty. */
  predicate Present(rec: Option<Record>)
  {
    rec.Some? && rec.value != map[]
  }

  /** Python truthiness of an optional string: present and non-empty. */
  predicate Given(s: Option<string>)
  {
    s.Some? && s.value != ""
  }

  /** Renders an optional string the way an f-string renders `None`. */
  function ShowOption(s: Option<string>): string
  {
    if s.Some? then s.value else "None"
  }

  function StrOrNull(s: Option<string>): Value
  {
    if s.Some? then Str(s.value) else Null
  }

  /** The value of a number as integer cents: `float(True)` is 1.0, and an int i is 100*i cents. */
  function NumberCents(v: Value): Option<int>
  {
    match v
    case Bool(b) => Some(if b then 100 else 0)
    case Int(i) => Some(100 * i)
    case Float(c) => Some(c)
    case _ => None
  }

  /** Python's `==` on scalars: numbers compare by value across bool, int and float. */
  predicate PyEq(a: Value, b: Value)
  {
    if NumberCents(a).Some? && NumberCents(b).Some? then NumberCents(a) == NumberCents(b) else a == b
  }

  /** The name `type(v).__name__` gives, as exception messages quote it. */
  function TypeName(v: Value): string
  {
    match v
    case Null => "NoneType"
    case Bool(_) => "bool"
    case Int(_) => "int"
    case Float(_) => "float"
    case Str(_) => "str"
  }

  /** A LangChain document: its text and its metadata. */
  datatype Document = Document(pageContent: string, metadata: Record)

  /**
   * The result dictionary of `retrieve_invoice` / `retrieve_po`: `doc` is the
   * "invoice" or "po" entry, `error` is present only after a store exception.
   */
  datatype RetrievalResult = RetrievalResult(
    found: bool,
    doc: Option<Record>,
    confidence: int,
    searchResults: seq<Record>,
    error: Option<string>)

  /** The result dictionary of `verify_invoice_po_match`. */
  datatype VerificationResult = VerificationResult(
    matchScore: int,
    confidence: int,
    issues: seq<string>,
    recommendations: seq<string>,
    flaggingReasons: seq<string>,
    autoApprovable: bool,
    error: Option<string>)

  /** What an audit entry carries as `output_data`. */
  datatype Payload =
    | NoOutput
    | Retrieved(retrieval: RetrievalResult)
    | Verified(verification: VerificationResult)
    | ErrorOutput(error: string)

  /** One line of the audit log; the timestamp is not modelled. */
  datatype AuditEntry = AuditEntry(
    agentName: string,
    action: string,
    inputData: Record,
    outputData: Payload,
    confidence: int)

  /** A line of the audit file: an entry that `log_action` wrote, or a line that does not parse as JSON. */
  datatype Line = Entry(entry: AuditEntry) | Malformed(raw: string)
}
