/**
 The rows the pipeline keeps for one invoice, and what each stage does to them.
 Identifiers are positions in append-only tables. A stage sees committed rows
 and answers with a verdict; it never changes anything else.
 */
module Records {
  import opened Options
  import opened Lifecycle
  import opened Text
  import opened Rules
  import opened ApprovalPolicy
  import opened ExtractionRetry
  import opened VendorMatching

  // ---- rows --------------------------------------------------------------------

  /** What a reason text is rendered from. */
  datatype Note =
    | StartingExtraction
    | EmptyDocument
    | NoClient(error: string)
    | ResponsesRejected(errors: seq<string>)
    | ExtractedIn(attempts: nat)
    | NothingToMatch
    | StartingMatching
    | MatchedBy(vendor: VendorMethod, po: PoMethod)
    | NothingToValidate
    | RulesEvaluated(count: nat, passed: bool)
    | NothingToApprove
    | DecisionReasons(reasons: seq<Reason>)
    | NothingToExport
    | StartingExport
    | ExportedTo(storageKey: string)
    | Remark(text: string)

  datatype Extraction = Extraction(
    ok: bool,
    attempts: nat,
    invoice: Option<ExtractedInvoice>,
    confidence: Option<map<string, real>>,
    error: Option<Note>,
    rawResponse: Option<string>)

  datatype Match = Match(vendor: VendorMatchResult, po: PoMatchResult)

  /** `duplicates` are the candidate ids that the duplicate rule reports. */
  datatype Validation = Validation(results: seq<RuleResult>, duplicates: seq<nat>, passed: bool)

  datatype AuditEntry = AuditEntry(from: Status, to: Status, actor: string, reason: Option<Note>)

  datatype Payload = Payload(
    invoiceId: nat,
    status: Status,
    invoice: ExtractedInvoice,
    vendorId: Option<nat>,
    poId: Option<nat>,
    approvedBy: Option<string>,
    approvedReason: Option<Note>)

  datatype Export = Export(storageKey: string, payload: Payload)

  datatype Row = Row(
    status: Status,
    failureReason: Option<Note>,
    extractions: seq<Extraction>,
    matches: seq<Match>,
    validations: seq<Validation>,
    audit: seq<AuditEntry>,
    exports: seq<Export>)

  datatype Vendor = Vendor(legalName: string, taxId: Option<string>, aliases: seq<string>, active: bool)

  datatype PurchaseOrder = PurchaseOrder(poNumber: string, currency: string, total: real, vendorId: nat)

  const NEW_ROW := Row(Received, None, [], [], [], [], [])

  const SYSTEM := "system"

  // ---- messages and verdicts -----------------------------------------------------

  datatype Kind = ExtractInvoice | MatchInvoice | ValidateInvoice | ApproveInvoice | ExportInvoice

  /**
   What a stage answers: it has nothing to do, it raises (and the transaction is
   rolled back), or it commits a new row and names the task to enqueue next.
   */
  datatype Verdict = Skipped | Raised | Done(row: Row, next: Option<Kind>)

  /** The task that an invoice in a given status waits for. */
  function Wakes(status: Status): Option<Kind> {
    match status
    case Received => Some(ExtractInvoice)
    case Extracted => Some(MatchInvoice)
    case Validating => Some(ValidateInvoice)
    case Validated => Some(ApproveInvoice)
    case AutoApproved => Some(ExportInvoice)
    case Approved => Some(ExportInvoice)
    case _ => None
  }

  /** A status that a transaction passes through and never commits. */
  predicate Transient(status: Status) {
    status in {Extracting, Matching, Exporting}
  }

  // ---- the only way to change a status --------------------------------------------

  /** None when the move is illegal: the caller raises and nothing is written. */
  function Advanced(row: Row, target: Status, actor: string, reason: Option<Note>): Option<Row> {
    if CanTransition(row.status, target) then
      Some(row.(status := target, audit := row.audit + [AuditEntry(row.status, target, actor, reason)]))
    else None
  }

  function Conclude(row: Option<Row>, next: Option<Kind>): Verdict {
    if row.None? then Raised else Done(row.value, next)
  }

  /** A missing prerequisite: record it and try to fail the invoice. */
  function GiveUp(row: Row, note: Note): Verdict {
    Conclude(Advanced(row.(failureReason := Some(note)), Failed, SYSTEM, Some(note)), None)
  }

  function LatestSuccessful(extractions: seq<Extraction>): Option<Extraction> {
    if extractions == [] then None
    else
      var last := extractions[|extractions| - 1];
      if last.ok then Some(last) else LatestSuccessful(extractions[..|extractions| - 1])
  }

  function Last<T>(s: seq<T>): Option<T> {
    if s == [] then None else Some(s[|s| - 1])
  }

  /** The extracted invoice that the later stages work from. */
  function Data(row: Row): Option<ExtractedInvoice> {
    var e := LatestSuccessful(row.extractions);
    if e.None? then None else e.value.invoice
  }

  // ---- extraction -------------------------------------------------------------------

  /** What a task run finds outside the database. */
  datatype Input = Input(
    documentText: string, clientError: Option<string>, replies: seq<Reply>, maxRetries: int, exportKey: string)

  function FailedExtraction(error: Note, attempts: nat, raw: Option<string>): Extraction {
    Extraction(false, attempts, None, None, Some(error), raw)
  }

  /** One attempt; None when the call to the model raises. */
  function Attempt(input: Input): Option<Extraction> {
    if Strip(input.documentText) == "" then Some(FailedExtraction(EmptyDocument, 0, None))
    else if input.clientError.Some? then Some(FailedExtraction(NoClient(input.clientError.value), 0, None))
    else
      match Outcome(input.replies, input.maxRetries)
      case Parsed(result, attempts, raw) =>
        Some(Extraction(true, attempts, Some(result.invoice), Some(result.confidence), None, Some(raw)))
      case Exhausted(errors, attempts, raw) =>
        Some(FailedExtraction(ResponsesRejected(errors), attempts, Some(raw)))
      case ModelUnreachable => None
  }

  function ExtractionVerdict(row: Row, input: Input): Verdict {
    if row.status != Received then Skipped
    else
      var started := Advanced(row, Extracting, SYSTEM, Some(StartingExtraction));
      var attempt := Attempt(input);
      if started.None? || attempt.None? then Raised
      else
        var e := attempt.value;
        var written := started.value.(extractions := row.extractions + [e], failureReason := e.error);
        if e.ok then
          Conclude(Advanced(written, Extracted, SYSTEM, Some(ExtractedIn(e.attempts))), Some(MatchInvoice))
        else
          Conclude(Advanced(written, Failed, SYSTEM, e.error), None)
  }

  // ---- matching ----------------------------------------------------------------------

  /** The active vendors, as the matcher sees them. */
  function Identities(vendors: seq<Vendor>): seq<VendorIdentity> {
    if vendors == [] then []
    else
      var n := |vendors| - 1;
      Identities(vendors[..n])
      + (if vendors[n].active
         then [VendorIdentity(n, vendors[n].legalName, vendors[n].taxId, vendors[n].aliases)] else [])
  }

  function OrderIdentities(orders: seq<PurchaseOrder>): seq<PoIdentity> {
    seq(|orders|, i requires 0 <= i < |orders| => PoIdentity(i, orders[i].poNumber))
  }

  function MatchOf(ratio: Ratio, vendors: seq<Vendor>, orders: seq<PurchaseOrder>, invoice: ExtractedInvoice): Match {
    Match(VendorMatch(ratio, invoice.supplierTaxId, invoice.supplierName, Identities(vendors)),
          PoMatch(invoice.purchaseOrderNumber, OrderIdentities(orders)))
  }

  function MatchingVerdict(ratio: Ratio, vendors: seq<Vendor>, orders: seq<PurchaseOrder>, row: Row): Verdict {
    if row.status != Extracted then Skipped
    else
      var data := Data(row);
      if data.None? then GiveUp(row, NothingToMatch)
      else
        var started := Advanced(row, Matching, SYSTEM, Some(StartingMatching));
        if started.None? then Raised
        else
          var m := MatchOf(ratio, vendors, orders, data.value);
          Conclude(
            Advanced(started.value.(matches := row.matches + [m]), Validating, SYSTEM,
                     Some(MatchedBy(m.vendor.how, m.po.how))),
            Some(ValidateInvoice))
  }

  // ---- validation ----------------------------------------------------------------------

  predicate MatchedTo(row: Row, vendorId: nat) {
    exists i :: 0 <= i < |row.matches| && row.matches[i].vendor.vendorId == Some(vendorId)
  }

  /** A live invoice of the vendor with the same number, other than `self`. */
  predicate Competes(rows: seq<Row>, self: nat, vendorId: nat, number: string, j: nat)
    requires j < |rows|
  {
    && j != self
    && MatchedTo(rows[j], vendorId)
    && rows[j].status !in {Failed, Rejected}
    && Data(rows[j]).Some?
    && Numbered(Data(rows[j]).value)
    && CanonicalNumber(Data(rows[j]).value.invoiceNumber.value) == CanonicalNumber(number)
  }

  /** Every competing invoice among the first `n`, in table order. */
  function DuplicateCandidates(rows: seq<Row>, self: nat, vendorId: nat, number: string, n: nat): (r: seq<nat>)
    requires n <= |rows|
    ensures forall j :: j in r <==> 0 <= j < n && Competes(rows, self, vendorId, number, j)
  {
    if n == 0 then []
    else
      DuplicateCandidates(rows, self, vendorId, number, n - 1)
      + (if Competes(rows, self, vendorId, number, n - 1) then [n - 1] else [])
  }

  function OrderSnapshot(orders: seq<PurchaseOrder>, m: Option<Match>): Option<PoSnapshot> {
    if m.Some? && m.value.po.poId.Some? && m.value.po.poId.value < |orders| then
      var po := orders[m.value.po.poId.value];
      Some(PoSnapshot(po.poNumber, po.currency, po.total, po.vendorId))
    else None
  }

  function MatchedVendor(m: Option<Match>): Option<nat> {
    if m.Some? then m.value.vendor.vendorId else None
  }

  function Judge(
    orders: seq<PurchaseOrder>, invoice: ExtractedInvoice, m: Option<Match>, duplicates: seq<nat>
  ): Validation
  {
    var results := RunRules(ValidationInput(invoice, OrderSnapshot(orders, m), MatchedVendor(m), duplicates));
    Validation(results, duplicates, !HasBlockingFailure(results))
  }

  function DuplicatesOf(rows: seq<Row>, id: nat, invoice: ExtractedInvoice, m: Option<Match>): seq<nat> {
    if MatchedVendor(m).Some? && Numbered(invoice)
    then DuplicateCandidates(rows, id, MatchedVendor(m).value, invoice.invoiceNumber.value, |rows|)
    else []
  }

  function ValidationVerdict(orders: seq<PurchaseOrder>, rows: seq<Row>, id: nat): Verdict
    requires id < |rows|
  {
    var row := rows[id];
    if row.status != Validating then Skipped
    else
      var data := Data(row);
      if data.None? then GiveUp(row, NothingToValidate)
      else
        var m := Last(row.matches);
        var v := Judge(orders, data.value, m, DuplicatesOf(rows, id, data.value, m));
        Conclude(
          Advanced(row.(validations := row.validations + [v]), Validated, SYSTEM,
                   Some(RulesEvaluated(|v.results|, v.passed))),
          Some(ApproveInvoice))
  }

  // ---- approval ---------------------------------------------------------------------------

  predicate VendorIdentified(m: Option<Match>) {
    && m.Some?
    && m.value.vendor.vendorId.Some?
    && m.value.vendor.how in {ByTaxId, ByExactName, ByFuzzyName}
  }

  predicate HasPo(m: Option<Match>) {
    m.Some? && m.value.po.poId.Some?
  }

  function ConfidenceOf(e: Extraction): map<string, real> {
    if e.confidence.Some? then e.confidence.value else map[]
  }

  function DecisionFor(v: Validation, e: Extraction, m: Option<Match>): ApprovalDecision {
    Decision(v.passed, VendorIdentified(m), HasPo(m), ConfidenceOf(e))
  }

  function ApprovalVerdict(row: Row): Verdict {
    if row.status != Validated then Skipped
    else
      var v, e, m := Last(row.validations), LatestSuccessful(row.extractions), Last(row.matches);
      if v.None? || e.None? then GiveUp(row, NothingToApprove)
      else
        var d := DecisionFor(v.value, e.value, m);
        Conclude(
          Advanced(row, d.outcome, SYSTEM, Some(DecisionReasons(d.reasons))),
          if d.outcome == AutoApproved then Some(ExportInvoice) else None)
  }

  /** A reviewer's decision; it raises unless the invoice is in review. */
  function HumanVerdict(row: Row, approve: bool, actor: string, reason: Option<Note>): Verdict {
    Conclude(
      Advanced(row, if approve then Approved else Rejected, actor, reason),
      if approve then Some(ExportInvoice) else None)
  }

  // ---- export --------------------------------------------------------------------------------

  /** The most recent audit entry that approves the invoice. */
  function ApprovalEntry(audit: seq<AuditEntry>): Option<AuditEntry> {
    if audit == [] then None
    else
      var last := audit[|audit| - 1];
      if last.to in {AutoApproved, Approved} then Some(last) else ApprovalEntry(audit[..|audit| - 1])
  }

  function PayloadOf(
    id: nat, status: Status, invoice: ExtractedInvoice, m: Option<Match>, entry: Option<AuditEntry>): Payload
  {
    Payload(
      id, status, invoice,
      MatchedVendor(m),
      if m.Some? then m.value.po.poId else None,
      if entry.Some? then Some(entry.value.actor) else None,
      if entry.Some? then entry.value.reason else None)
  }

  function ExportVerdict(row: Row, id: nat, key: string): Verdict {
    if row.status !in {AutoApproved, Approved} then Skipped
    else
      var data := Data(row);
      if data.None? then GiveUp(row, NothingToExport)
      else
        var started := Advanced(row, Exporting, SYSTEM, Some(StartingExport));
        if started.None? then Raised
        else
          var payload := PayloadOf(id, row.status, data.value, Last(row.matches), ApprovalEntry(started.value.audit));
          Conclude(
            Advanced(started.value.(exports := row.exports + [Export(key, payload)]), Exported, SYSTEM,
                     Some(ExportedTo(key))),
            None)
  }

  // ---- every task ------------------------------------------------------------------------------

  function Handle(
    ratio: Ratio, vendors: seq<Vendor>, orders: seq<PurchaseOrder>, rows: seq<Row>, kind: Kind, id: nat, input: Input
  ): Verdict
  {
    if id >= |rows| then Raised
    else
      match kind
      case ExtractInvoice => ExtractionVerdict(rows[id], input)
      case MatchInvoice => MatchingVerdict(ratio, vendors, orders, rows[id])
      case ValidateInvoice => ValidationVerdict(orders, rows, id)
      case ApproveInvoice => ApprovalVerdict(rows[id])
      case ExportInvoice => ExportVerdict(rows[id], id, input.exportKey)
  }
}
