/** The stages as the code runs them: on an invoice object that they change in place. */
module Services {
  import opened Options
  import opened Lifecycle
  import opened Text
  import opened Rules
  import opened ApprovalPolicy
  import opened ExtractionRetry
  import opened VendorMatching
  import opened Records
  import opened StageMeanings

  /** An invoice loaded into a session. Rows added in the session are appended to its lists. */
  class Invoice {
    var status: Status
    var failureReason: Option<Note>
    var extractions: seq<Extraction>
    var matches: seq<Match>
    var validations: seq<Validation>
    var audit: seq<AuditEntry>
    var exports: seq<Export>

    /** The row a flush would write. */
    function Snapshot(): Row
      reads this
    {
      Row(status, failureReason, extractions, matches, validations, audit, exports)
    }

    constructor Load(row: Row)
      ensures Snapshot() == row
    {
      status := row.status;
      failureReason := row.failureReason;
      extractions := row.extractions;
      matches := row.matches;
      validations := row.validations;
      audit := row.audit;
      exports := row.exports;
    }

    /** The only way a status changes. A refused move writes neither the log nor the status. */
    method Advance(target: Status, actor: string, reason: Option<Note>) returns (raised: bool)
      modifies this`status, this`audit
      ensures raised <==> !CanTransition(old(status), target)
      ensures raised ==> Snapshot() == old(Snapshot())
      ensures !raised ==> status == target && audit == old(audit) + [AuditEntry(old(status), target, actor, reason)]
      ensures failureReason == old(failureReason) && SameChildren(Snapshot(), old(Snapshot()))
      ensures !raised ==> Some(Snapshot()) == Advanced(old(Snapshot()), target, actor, reason)
    {
      if !CanTransition(status, target) {
        return true;
      }
      audit := audit + [AuditEntry(status, target, actor, reason)];
      status := target;
      raised := false;
    }

    method GiveUpWith(note: Note) returns (raised: bool)
      modifies this
      ensures raised <==> old(status) in {Validated, NeedsReview, AutoApproved, Approved, Rejected, Exported, Failed}
      ensures !raised ==>
                && status == Failed && failureReason == Some(note) && SameChildren(Snapshot(), old(Snapshot()))
                && audit == old(audit) + [AuditEntry(old(status), Failed, "system", Some(note))]
      ensures raised <==> GiveUp(old(Snapshot()), note).Raised?
      ensures !raised ==> GiveUp(old(Snapshot()), note) == Done(Snapshot(), None)
    {
      failureReason := Some(note);
      raised := Advance(Failed, SYSTEM, Some(note));
    }
  }

  // ---- searches ------------------------------------------------------------------

  method LatestSuccessfulExtraction(extractions: seq<Extraction>) returns (r: Option<Extraction>)
    ensures r == LatestSuccessful(extractions)
    ensures r.Some? ==> exists i :: LatestOk(extractions, i) && extractions[i] == r.value
    ensures r.None? ==> forall e :: e in extractions ==> !e.ok
  {
    var i := |extractions|;
    assert extractions[..i] == extractions;
    while i > 0
      invariant 0 <= i <= |extractions|
      invariant forall j :: i <= j < |extractions| ==> !extractions[j].ok
      invariant LatestSuccessful(extractions[..i]) == LatestSuccessful(extractions)
    {
      i := i - 1;
      assert extractions[..i + 1][..i] == extractions[..i];
      if extractions[i].ok {
        assert LatestOk(extractions, i);
        return Some(extractions[i]);
      }
    }
    return None;
  }

  /** The backward scan for the entry that approved the invoice: the last one that did. */
  method ApprovalAuditEntry(audit: seq<AuditEntry>) returns (r: Option<AuditEntry>)
    ensures r == ApprovalEntry(audit)
    ensures r.Some? ==> exists i :: 0 <= i < |audit| && audit[i] == r.value && r.value.to in {AutoApproved, Approved}
                                    && forall j :: i < j < |audit| ==> audit[j].to !in {AutoApproved, Approved}
    ensures r.None? ==> forall e :: e in audit ==> e.to !in {AutoApproved, Approved}
  {
    var i := |audit|;
    assert audit[..i] == audit;
    while i > 0
      invariant 0 <= i <= |audit|
      invariant forall j :: i <= j < |audit| ==> audit[j].to !in {AutoApproved, Approved}
      invariant ApprovalEntry(audit[..i]) == ApprovalEntry(audit)
    {
      i := i - 1;
      assert audit[..i + 1][..i] == audit[..i];
      if audit[i].to in {AutoApproved, Approved} {
        return Some(audit[i]);
      }
    }
    return None;
  }

  /** The scan over the other invoices matched to the vendor: exactly the competing ones. */
  method FindDuplicateCandidates(rows: seq<Row>, self: nat, vendorId: nat, number: string)
    returns (candidates: seq<nat>)
    ensures candidates == DuplicateCandidates(rows, self, vendorId, number, |rows|)
    ensures forall j :: j in candidates <==> 0 <= j < |rows| && j != self && Duplicates(rows[j], vendorId, number)
  {
    forall j: nat | j < |rows|
      ensures Competes(rows, self, vendorId, number, j) <==> j != self && Duplicates(rows[j], vendorId, number)
    {
      CompetesMeans(rows, self, vendorId, number, j);
    }
    var normalized := CanonicalNumber(number);
    candidates := [];
    for j := 0 to |rows|
      invariant candidates == DuplicateCandidates(rows, self, vendorId, number, j)
    {
      var other := rows[j];
      if j == self || !MatchedTo(other, vendorId) || other.status in {Failed, Rejected} {
        continue;
      }
      var extraction := LatestSuccessfulExtraction(other.extractions);
      if extraction.None? || extraction.value.invoice.None? {
        continue;
      }
      var otherNumber := extraction.value.invoice.value.invoiceNumber;
      if otherNumber.Some? && otherNumber.value != "" && CanonicalNumber(otherNumber.value) == normalized {
        candidates := candidates + [j];
      }
    }
  }

  // ---- extraction --------------------------------------------------------------------

  method FailExtraction(invoice: Invoice, error: Note, attempts: nat, raw: Option<string>)
    returns (raised: bool, extraction: Option<Extraction>)
    requires invoice.status == Extracting
    modifies invoice
    ensures !raised
    ensures extraction == Some(FailedExtraction(error, attempts, raw))
    ensures Some(invoice.Snapshot())
            == Advanced(old(invoice.Snapshot()).(
                          extractions := old(invoice.extractions) + [FailedExtraction(error, attempts, raw)],
                          failureReason := Some(error)),
                        Failed, SYSTEM, Some(error))
  {
    var e := FailedExtraction(error, attempts, raw);
    invoice.extractions := invoice.extractions + [e];
    invoice.failureReason := Some(error);
    raised := invoice.Advance(Failed, SYSTEM, Some(error));
    extraction := Some(e);
  }

  method RunExtraction(invoice: Invoice, input: Input) returns (raised: bool, extraction: Option<Extraction>)
    modifies invoice
    ensures var v := ExtractionVerdict(old(invoice.Snapshot()), input);
            && (raised <==> v.Raised?)
            && (v.Skipped? ==> extraction.None? && invoice.Snapshot() == old(invoice.Snapshot()))
            && (v.Done? ==> extraction.Some? && invoice.Snapshot() == v.row
                            && Last(invoice.extractions) == extraction
                            && v.next == if extraction.value.ok then Some(MatchInvoice) else None)
  {
    if invoice.status != Received {
      return false, None;
    }
    raised := invoice.Advance(Extracting, SYSTEM, Some(StartingExtraction));
    if Strip(input.documentText) == "" {
      raised, extraction := FailExtraction(invoice, EmptyDocument, 0, None);
      return;
    }
    if input.clientError.Some? {
      raised, extraction := FailExtraction(invoice, NoClient(input.clientError.value), 0, None);
      return;
    }
    var outcome, prompts := ExtractWithRetry(input.replies, input.documentText, input.maxRetries);
    match outcome {
      case ModelUnreachable =>
        return true, None;
      case Exhausted(errors, attempts, raw) =>
        raised, extraction := FailExtraction(invoice, ResponsesRejected(errors), attempts, Some(raw));
      case Parsed(result, attempts, raw) =>
        var e := Extraction(true, attempts, Some(result.invoice), Some(result.confidence), None, Some(raw));
        invoice.extractions := invoice.extractions + [e];
        invoice.failureReason := None;
        raised := invoice.Advance(Extracted, SYSTEM, Some(ExtractedIn(attempts)));
        extraction := Some(e);
    }
  }

  // ---- matching ---------------------------------------------------------------------------

  method RunMatching(invoice: Invoice, ratio: Ratio, vendors: seq<Vendor>, orders: seq<PurchaseOrder>)
    returns (raised: bool, result: Option<Match>)
    modifies invoice
    ensures var v := MatchingVerdict(ratio, vendors, orders, old(invoice.Snapshot()));
            && (raised <==> v.Raised?)
            && (v.Skipped? ==> result.None? && invoice.Snapshot() == old(invoice.Snapshot()))
            && (v.Done? ==> invoice.Snapshot() == v.row
                            && (result.Some? ==>
                                  && Last(invoice.matches) == result
                                  && exists data :: Holds(old(invoice.Snapshot()), data)
                                                    && IsMatch(ratio, vendors, orders, data, result.value))
                            && v.next == if result.Some? then Some(ValidateInvoice) else None)
  {
    if invoice.status != Extracted {
      return false, None;
    }
    var extraction := LatestSuccessfulExtraction(invoice.extractions);
    if extraction.None? || extraction.value.invoice.None? {
      raised := invoice.GiveUpWith(NothingToMatch);
      return raised, None;
    }
    raised := invoice.Advance(Matching, SYSTEM, Some(StartingMatching));
    if raised {
      return true, None;
    }
    var extracted := extraction.value.invoice.value;
    var vendorResult := MatchVendor(ratio, extracted.supplierTaxId, extracted.supplierName, Identities(vendors));
    var poResult := PoMatch(extracted.purchaseOrderNumber, OrderIdentities(orders));
    var m := Match(vendorResult, poResult);
    MatchIsOfInvoice(ratio, vendors, orders, old(invoice.Snapshot()), extracted);
    invoice.matches := invoice.matches + [m];
    raised := invoice.Advance(Validating, SYSTEM, Some(MatchedBy(vendorResult.how, poResult.how)));
    result := Some(m);
  }

  // ---- validation ---------------------------------------------------------------------------

  method RunValidation(invoice: Invoice, id: nat, rows: seq<Row>, orders: seq<PurchaseOrder>)
    returns (raised: bool, result: Option<Validation>)
    requires id < |rows| && rows[id] == invoice.Snapshot()
    modifies invoice
    ensures var v := ValidationVerdict(orders, rows, id);
            && (raised <==> v.Raised?)
            && (v.Skipped? ==> result.None? && invoice.Snapshot() == old(invoice.Snapshot()))
            && (v.Done? ==> invoice.Snapshot() == v.row
                            && (result.Some? ==>
                                  && Last(invoice.validations) == result
                                  && exists data, inp ::
                                       && Holds(rows[id], data) && RulesSee(inp, orders, rows, id, data)
                                       && RunRules(inp) == result.value.results
                                       && inp.duplicateCandidates == result.value.duplicates)
                            && v.next == if result.Some? then Some(ApproveInvoice) else None)
  {
    if invoice.status != Validating {
      return false, None;
    }
    var extraction := LatestSuccessfulExtraction(invoice.extractions);
    if extraction.None? || extraction.value.invoice.None? {
      raised := invoice.GiveUpWith(NothingToValidate);
      return raised, None;
    }
    var extracted := extraction.value.invoice.value;
    var m := Last(invoice.matches);
    var duplicates: seq<nat> := [];
    if MatchedVendor(m).Some? && Numbered(extracted) {
      duplicates := FindDuplicateCandidates(rows, id, MatchedVendor(m).value, extracted.invoiceNumber.value);
    }
    var input := ValidationInput(extracted, OrderSnapshot(orders, m), MatchedVendor(m), duplicates);
    RulesSeeInvoice(orders, rows, id, extracted, input);
    var results := RunRules(input);
    var validation := Validation(results, duplicates, !HasBlockingFailure(results));
    invoice.validations := invoice.validations + [validation];
    raised := invoice.Advance(Validated, SYSTEM, Some(RulesEvaluated(|results|, validation.passed)));
    result := Some(validation);
  }

  // ---- approval -------------------------------------------------------------------------------

  method RunApproval(invoice: Invoice) returns (raised: bool, result: Option<ApprovalDecision>)
    modifies invoice
    ensures var v := ApprovalVerdict(old(invoice.Snapshot()));
            && (raised <==> v.Raised?)
            && (v.Skipped? ==> result.None? && invoice.Snapshot() == old(invoice.Snapshot()))
            && (v.Done? ==> result.Some? && invoice.Snapshot() == v.row
                            && invoice.status == result.value.outcome
                            && (invoice.status == AutoApproved <==> Payable(old(invoice.Snapshot())))
                            && v.next == if result.value.outcome == AutoApproved then Some(ExportInvoice) else None)
  {
    if invoice.status != Validated {
      return false, None;
    }
    var validation := Last(invoice.validations);
    var extraction := LatestSuccessfulExtraction(invoice.extractions);
    var m := Last(invoice.matches);
    if validation.None? || extraction.None? {
      raised := invoice.GiveUpWith(NothingToApprove);
      return raised, None;
    }
    DecisionMeansPayable(invoice.Snapshot(), validation.value, extraction.value);
    var decision := DecideApproval(
      validation.value.passed, VendorIdentified(m), HasPo(m), ConfidenceOf(extraction.value));
    raised := invoice.Advance(decision.outcome, SYSTEM, Some(DecisionReasons(decision.reasons)));
    result := Some(decision);
  }

  method RecordHumanDecision(invoice: Invoice, approve: bool, actor: string, reason: Option<Note>)
    returns (raised: bool)
    modifies invoice
    ensures var v := HumanVerdict(old(invoice.Snapshot()), approve, actor, reason);
            && (raised <==> v.Raised?)
            && (raised ==> invoice.Snapshot() == old(invoice.Snapshot()))
            && (!raised ==> invoice.Snapshot() == v.row)
    ensures raised <==> old(invoice.status) != NeedsReview
    ensures !raised ==>
              && invoice.status == (if approve then Approved else Rejected)
              && invoice.audit
                 == old(invoice.audit) + [AuditEntry(NeedsReview, if approve then Approved else Rejected, actor, reason)]
    ensures invoice.failureReason == old(invoice.failureReason)
    ensures SameChildren(invoice.Snapshot(), old(invoice.Snapshot()))
  {
    HumanVerdictMeans(invoice.Snapshot(), approve, actor, reason);
    raised := invoice.Advance(if approve then Approved else Rejected, actor, reason);
  }

  // ---- export ------------------------------------------------------------------------------------

  method RunExport(invoice: Invoice, id: nat, key: string) returns (raised: bool, result: Option<Export>)
    modifies invoice
    ensures var v := ExportVerdict(old(invoice.Snapshot()), id, key);
            && (raised <==> v.Raised?)
            && (v.Skipped? ==> result.None? && invoice.Snapshot() == old(invoice.Snapshot()))
            && (v.Done? ==> invoice.Snapshot() == v.row && v.next == None
                            && (result.Some? <==> invoice.status == Exported)
                            && (result.Some? ==> Last(invoice.exports) == result))
  {
    if invoice.status !in {AutoApproved, Approved} {
      return false, None;
    }
    var extraction := LatestSuccessfulExtraction(invoice.extractions);
    if extraction.None? || extraction.value.invoice.None? {
      raised := invoice.GiveUpWith(NothingToExport);
      return raised, None;
    }
    var startingStatus := invoice.status;
    raised := invoice.Advance(Exporting, SYSTEM, Some(StartingExport));
    if raised {
      return true, None;
    }
    var approvalEntry := ApprovalAuditEntry(invoice.audit);
    var payload := PayloadOf(id, startingStatus, extraction.value.invoice.value, Last(invoice.matches), approvalEntry);
    var artifact := Export(key, payload);
    invoice.exports := invoice.exports + [artifact];
    raised := invoice.Advance(Exported, SYSTEM, Some(ExportedTo(key)));
    result := Some(artifact);
  }
}
