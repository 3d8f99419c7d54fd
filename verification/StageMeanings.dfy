/**
 What the stages do, said of the tables and the texts themselves: which order and
 which vendor a match names, which invoices block a validation, what an approval
 reads, and what every stage writes and by whose hand.
 */
module StageMeanings {
  import opened Options
  import opened Lifecycle
  import opened Text
  import opened Rules
  import opened ApprovalPolicy
  import opened ExtractionRetry
  import opened VendorMatching
  import opened VendorMatchingProofs
  import opened Records

  // ---- which order a match names ---------------------------------------------------

  /** The order at `i` is the one and only order in the table with the number that is asked for. */
  predicate OnlyQuoted(number: Option<string>, orders: seq<PurchaseOrder>, i: int) {
    && 0 <= i < |orders|
    && NormalizeCode(number) != ""
    && forall j :: 0 <= j < |orders| ==> (NormalizeCode(Some(orders[j].poNumber)) == NormalizeCode(number) <==> j == i)
  }

  lemma {:induction false} QuotedIsBearer(number: Option<string>, orders: seq<PurchaseOrder>, ids: seq<PoIdentity>, i: int)
    requires ids == OrderIdentities(orders) && NormalizeCode(number) != ""
    ensures OnlyBearer(number, ids, i) <==> OnlyQuoted(number, orders, i)
    ensures |ids| == |orders| && forall j :: 0 <= j < |ids| ==> ids[j].poId == j
  {
    assert forall j :: 0 <= j < |ids| ==> ids[j].poNumber == orders[j].poNumber;
    assert forall j :: 0 <= j < |ids| ==>
             (Bears(number, ids, j) <==> NormalizeCode(Some(orders[j].poNumber)) == NormalizeCode(number));
  }

  /** A match names an order exactly when it is the only one in the table with the number quoted. */
  lemma {:induction false} MatchedOrderMeans(number: Option<string>, orders: seq<PurchaseOrder>, i: nat)
    ensures PoMatch(number, OrderIdentities(orders)).poId == Some(i) <==> OnlyQuoted(number, orders, i)
  {
    var ids := OrderIdentities(orders);
    var r := PoMatch(number, ids);
    PoMatchMeans(number, ids);
    if NormalizeCode(number) != "" {
      QuotedIsBearer(number, orders, ids, i);
      if r.poId == Some(i) {
        var k :| OnlyBearer(number, ids, k);
        QuotedIsBearer(number, orders, ids, k);
      }
    }
  }

  // ---- which vendor a match names -----------------------------------------------------

  function AsIdentity(vendors: seq<Vendor>, p: nat): VendorIdentity
    requires p < |vendors|
  {
    VendorIdentity(p, vendors[p].legalName, vendors[p].taxId, vendors[p].aliases)
  }

  /** The identities are the active vendors, each with its place in the table. */
  lemma {:induction false} IdentitiesAreActive(vendors: seq<Vendor>)
    ensures forall i :: 0 <= i < |Identities(vendors)| ==>
              var p := Identities(vendors)[i].vendorId;
              p < |vendors| && vendors[p].active && Identities(vendors)[i] == AsIdentity(vendors, p)
    ensures forall i, j :: 0 <= i < j < |Identities(vendors)| ==>
              Identities(vendors)[i].vendorId < Identities(vendors)[j].vendorId
  {
    if vendors != [] {
      var n := |vendors| - 1;
      var front := Identities(vendors[..n]);
      IdentitiesAreActive(vendors[..n]);
      assert forall i :: 0 <= i < |front| ==> Identities(vendors)[i] == front[i];
    }
  }

  lemma {:induction false} ActiveIsListed(vendors: seq<Vendor>, p: nat) returns (i: nat)
    requires p < |vendors| && vendors[p].active
    ensures i < |Identities(vendors)| && Identities(vendors)[i] == AsIdentity(vendors, p)
  {
    var n := |vendors| - 1;
    if p == n {
      i := |Identities(vendors[..n])|;
    } else {
      i := ActiveIsListed(vendors[..n], p);
    }
  }

  /** The active vendor at `p`, and no other active one, has the tax id. */
  ghost predicate OnlyTaxId(taxId: Option<string>, vendors: seq<Vendor>, p: nat) {
    && NormalizeCode(taxId) != ""
    && p < |vendors| && vendors[p].active
    && forall q :: 0 <= q < |vendors| && vendors[q].active ==>
         (NormalizeCode(vendors[q].taxId) == NormalizeCode(taxId) <==> q == p)
  }

  /** The active vendor at `p`, and no other active one, goes by the name. */
  ghost predicate OnlyName(name: string, vendors: seq<Vendor>, p: nat) {
    && p < |vendors| && vendors[p].active
    && forall q :: 0 <= q < |vendors| && vendors[q].active ==>
         ((exists n :: n in [vendors[q].legalName] + vendors[q].aliases && NormalizeText(Some(n)) == name) <==> q == p)
  }

  /** The best similarity of any name of the vendor. */
  ghost predicate Likeness(ratio: Ratio, name: string, v: Vendor, x: real) {
    && (exists n :: n in [v.legalName] + v.aliases && x == ratio(name, NormalizeText(Some(n))))
    && (forall n :: n in [v.legalName] + v.aliases ==> ratio(name, NormalizeText(Some(n))) <= x)
  }

  /** The active vendor at `p` is like enough, and by a clear lead more so than every other active one. */
  ghost predicate ClearLead(ratio: Ratio, name: string, vendors: seq<Vendor>, p: nat) {
    && p < |vendors| && vendors[p].active
    && exists x :: Likeness(ratio, name, vendors[p], x) && x >= 0.88 && OthersBelow(ratio, name, vendors, p, x)
  }

  ghost predicate OthersBelow(ratio: Ratio, name: string, vendors: seq<Vendor>, p: nat, x: real) {
    forall q, y :: 0 <= q < |vendors| && q != p && vendors[q].active && Likeness(ratio, name, vendors[q], y) ==> x - y >= 0.08
  }

  /** The vendor of an invoice, by the strongest check that decides; nobody, if none does. */
  ghost predicate Resolves(
    ratio: Ratio, taxId: Option<string>, supplierName: Option<string>, vendors: seq<Vendor>, p: nat)
  {
    if exists q :: OnlyTaxId(taxId, vendors, q) then OnlyTaxId(taxId, vendors, p)
    else
      var name := NormalizeText(supplierName);
      && name != ""
      && if exists q :: OnlyName(name, vendors, q) then OnlyName(name, vendors, p)
         else ClearLead(ratio, name, vendors, p)
  }

  lemma {:induction false} TaxIdNamesMeans(taxId: Option<string>, vendors: seq<Vendor>, i: nat)
    requires i < |Identities(vendors)|
    ensures TaxIdNames(taxId, Identities(vendors), i) <==> OnlyTaxId(taxId, vendors, Identities(vendors)[i].vendorId)
  {
    var ids := Identities(vendors);
    IdentitiesAreActive(vendors);
    var p := ids[i].vendorId;
    if TaxIdNames(taxId, ids, i) {
      forall q | 0 <= q < |vendors| && vendors[q].active
        ensures NormalizeCode(vendors[q].taxId) == NormalizeCode(taxId) <==> q == p
      {
        var j := ActiveIsListed(vendors, q);
        assert j != i ==> ids[j].vendorId != ids[i].vendorId;
      }
    }
    if OnlyTaxId(taxId, vendors, p) {
      forall j | 0 <= j < |ids| ensures NormalizeCode(ids[j].taxId) == NormalizeCode(taxId) <==> j == i {
        assert j != i ==> ids[j].vendorId != p;
      }
    }
  }

  lemma {:induction false} NameNamesMeans(name: string, vendors: seq<Vendor>, i: nat)
    requires i < |Identities(vendors)|
    ensures NameNames(name, Identities(vendors), i) <==> OnlyName(name, vendors, Identities(vendors)[i].vendorId)
  {
    var ids := Identities(vendors);
    IdentitiesAreActive(vendors);
    var p := ids[i].vendorId;
    if NameNames(name, ids, i) {
      forall q | 0 <= q < |vendors| && vendors[q].active
        ensures (exists n :: n in [vendors[q].legalName] + vendors[q].aliases && NormalizeText(Some(n)) == name) <==> q == p
      {
        var j := ActiveIsListed(vendors, q);
        assert j != i ==> ids[j].vendorId != ids[i].vendorId;
        assert KnownAs(name, ids[j]) <==> j == i;
      }
    }
    if OnlyName(name, vendors, p) {
      forall j | 0 <= j < |ids| ensures KnownAs(name, ids[j]) <==> j == i {
        assert j != i ==> ids[j].vendorId != p;
        assert NamesOf(ids[j]) == [vendors[ids[j].vendorId].legalName] + vendors[ids[j].vendorId].aliases;
      }
    }
  }

  lemma {:induction false} LikenessMeans(ratio: Ratio, name: string, vendors: seq<Vendor>, p: nat, x: real)
    requires p < |vendors|
    ensures Likeness(ratio, name, vendors[p], x) <==> Score(ratio, name, AsIdentity(vendors, p)) == x
  {
    ScoreIsBest(ratio, name, AsIdentity(vendors, p), x);
    assert NamesOf(AsIdentity(vendors, p)) == [vendors[p].legalName] + vendors[p].aliases;
  }

  lemma {:induction false} LeadsMeans(ratio: Ratio, name: string, vendors: seq<Vendor>, i: nat)
    requires i < |Identities(vendors)|
    ensures LeadsAt(ratio, name, Identities(vendors), i)
            <==> ClearLead(ratio, name, vendors, Identities(vendors)[i].vendorId)
  {
    var ids := Identities(vendors);
    IdentitiesAreActive(vendors);
    var p := ids[i].vendorId;
    var x := Score(ratio, name, ids[i]);
    LikenessMeans(ratio, name, vendors, p, x);
    if LeadsAt(ratio, name, ids, i) {
      LeadIsClear(ratio, name, vendors, i, x);
    }
    if ClearLead(ratio, name, vendors, p) {
      var z :| Likeness(ratio, name, vendors[p], z) && z >= 0.88 && OthersBelow(ratio, name, vendors, p, z);
      LikenessMeans(ratio, name, vendors, p, z);
      forall j | 0 <= j < |ids| && j != i ensures x - Score(ratio, name, ids[j]) >= 0.08 {
        LikenessMeans(ratio, name, vendors, ids[j].vendorId, Score(ratio, name, ids[j]));
        assert ids[j].vendorId != p;
      }
    }
  }

  lemma {:induction false} LeadIsClear(ratio: Ratio, name: string, vendors: seq<Vendor>, i: nat, x: real)
    requires LeadsAt(ratio, name, Identities(vendors), i) && x == Score(ratio, name, Identities(vendors)[i])
    ensures Identities(vendors)[i].vendorId < |vendors|
    ensures OthersBelow(ratio, name, vendors, Identities(vendors)[i].vendorId, x)
  {
    var ids := Identities(vendors);
    IdentitiesAreActive(vendors);
    var p := ids[i].vendorId;
    forall q, y | 0 <= q < |vendors| && q != p && vendors[q].active && Likeness(ratio, name, vendors[q], y)
      ensures x - y >= 0.08
    {
      var j := ActiveIsListed(vendors, q);
      LikenessMeans(ratio, name, vendors, q, y);
      assert j != i;
    }
  }

  lemma {:induction false} SomebodyListed(taxId: Option<string>, name: string, vendors: seq<Vendor>)
    ensures (exists q :: OnlyTaxId(taxId, vendors, q)) <==> exists i: nat :: TaxIdNames(taxId, Identities(vendors), i)
    ensures (exists q :: OnlyName(name, vendors, q)) <==> exists i: nat :: NameNames(name, Identities(vendors), i)
  {
    var ids := Identities(vendors);
    IdentitiesAreActive(vendors);
    forall q | OnlyTaxId(taxId, vendors, q) ensures exists i: nat :: TaxIdNames(taxId, ids, i) {
      var i := ActiveIsListed(vendors, q);
      TaxIdNamesMeans(taxId, vendors, i);
      assert TaxIdNames(taxId, ids, i);
    }
    forall i: nat | TaxIdNames(taxId, ids, i) ensures exists q :: OnlyTaxId(taxId, vendors, q) {
      TaxIdNamesMeans(taxId, vendors, i);
      assert OnlyTaxId(taxId, vendors, ids[i].vendorId);
    }
    forall q | OnlyName(name, vendors, q) ensures exists i: nat :: NameNames(name, ids, i) {
      var i := ActiveIsListed(vendors, q);
      NameNamesMeans(name, vendors, i);
      assert NameNames(name, ids, i);
    }
    forall i: nat | NameNames(name, ids, i) ensures exists q :: OnlyName(name, vendors, q) {
      NameNamesMeans(name, vendors, i);
      assert OnlyName(name, vendors, ids[i].vendorId);
    }
  }

  lemma {:induction false} IdentifiedMeans(
    ratio: Ratio, taxId: Option<string>, supplierName: Option<string>, vendors: seq<Vendor>, i: nat)
    requires i < |Identities(vendors)|
    ensures Identified(ratio, taxId, supplierName, Identities(vendors), i)
            <==> Resolves(ratio, taxId, supplierName, vendors, Identities(vendors)[i].vendorId)
  {
    var name := NormalizeText(supplierName);
    SomebodyListed(taxId, name, vendors);
    TaxIdNamesMeans(taxId, vendors, i);
    NameNamesMeans(name, vendors, i);
    LeadsMeans(ratio, name, vendors, i);
  }

  /** The matched vendor is the position in the table of the active vendor that the checks decide on. */
  lemma {:induction false} MatchedVendorMeans(
    ratio: Ratio, taxId: Option<string>, supplierName: Option<string>, vendors: seq<Vendor>, p: nat)
    ensures VendorMatch(ratio, taxId, supplierName, Identities(vendors)).vendorId == Some(p)
            <==> Resolves(ratio, taxId, supplierName, vendors, p)
  {
    var ids := Identities(vendors);
    IdentitiesAreActive(vendors);
    VendorMatchNeverGuesses(ratio, taxId, supplierName, ids);
    if Resolves(ratio, taxId, supplierName, vendors, p) {
      var i := ActiveIsListed(vendors, p);
      IdentifiedMeans(ratio, taxId, supplierName, vendors, i);
    }
    if VendorMatch(ratio, taxId, supplierName, ids).vendorId == Some(p) {
      var i: nat :| Identified(ratio, taxId, supplierName, ids, i);
      IdentifiedInRange(ratio, taxId, supplierName, ids, i);
      IdentifiedMeans(ratio, taxId, supplierName, vendors, i);
    }
  }

  lemma {:induction false} IdentifiedInRange(
    ratio: Ratio, taxId: Option<string>, supplierName: Option<string>, ids: seq<VendorIdentity>, i: nat)
    requires Identified(ratio, taxId, supplierName, ids, i)
    ensures i < |ids|
  {
  }

  // ---- the latest of everything ---------------------------------------------------------

  /** The extraction at `i` succeeded, and none after it did. */
  predicate LatestOk(extractions: seq<Extraction>, i: int) {
    && 0 <= i < |extractions| && extractions[i].ok
    && forall k :: i < k < |extractions| ==> !extractions[k].ok
  }

  lemma {:induction false} LatestSuccessfulMeans(extractions: seq<Extraction>)
    ensures LatestSuccessful(extractions).None? <==> forall i :: 0 <= i < |extractions| ==> !extractions[i].ok
    ensures forall i :: LatestOk(extractions, i) ==> LatestSuccessful(extractions) == Some(extractions[i])
    ensures LatestSuccessful(extractions).Some? ==> exists i :: LatestOk(extractions, i)
  {
    if extractions != [] {
      var n := |extractions| - 1;
      var front := extractions[..n];
      if extractions[n].ok {
        assert LatestOk(extractions, n);
      } else {
        LatestSuccessfulMeans(front);
        forall i ensures LatestOk(extractions, i) <==> LatestOk(front, i) {
        }
      }
    }
  }

  /** The invoice that the latest successful extraction holds. */
  ghost predicate Holds(row: Row, invoice: ExtractedInvoice) {
    exists i :: LatestOk(row.extractions, i) && row.extractions[i].invoice == Some(invoice)
  }

  lemma {:induction false} DataMeans(row: Row, invoice: ExtractedInvoice)
    ensures Data(row) == Some(invoice) <==> Holds(row, invoice)
  {
    LatestSuccessfulMeans(row.extractions);
  }

  /** The vendor of the most recent match. */
  predicate VendorIs(row: Row, vendorId: nat) {
    row.matches != [] && row.matches[|row.matches| - 1].vendor.vendorId == Some(vendorId)
  }

  /** The order of the most recent match. */
  predicate OrderIs(row: Row, poId: nat) {
    row.matches != [] && row.matches[|row.matches| - 1].po.poId == Some(poId)
  }

  lemma {:induction false} MatchedVendorIs(row: Row, vendorId: nat)
    ensures MatchedVendor(Last(row.matches)) == Some(vendorId) <==> VendorIs(row, vendorId)
  {
  }

  // ---- which invoices block a validation ---------------------------------------------------

  /** Another live invoice, once matched to this vendor, whose number is the same text. */
  ghost predicate Duplicates(row: Row, vendorId: nat, number: string) {
    && row.status != Failed && row.status != Rejected
    && (exists i :: 0 <= i < |row.matches| && row.matches[i].vendor.vendorId == Some(vendorId))
    && exists invoice :: Holds(row, invoice) && invoice.invoiceNumber.Some? && invoice.invoiceNumber.value != ""
                         && SameText(invoice.invoiceNumber.value, number)
  }

  lemma {:induction false} CompetesMeans(rows: seq<Row>, self: nat, vendorId: nat, number: string, j: nat)
    requires j < |rows|
    ensures Competes(rows, self, vendorId, number, j) <==> j != self && Duplicates(rows[j], vendorId, number)
  {
    if Data(rows[j]).Some? {
      var invoice := Data(rows[j]).value;
      DataMeans(rows[j], invoice);
      if Numbered(invoice) {
        CanonicalNumberDecides(invoice.invoiceNumber.value, number);
      }
      forall other | Holds(rows[j], other) ensures other == invoice {
        DataMeans(rows[j], other);
      }
    } else {
      forall other ensures !Holds(rows[j], other) {
        DataMeans(rows[j], other);
      }
    }
  }

  /** The duplicates found are the other invoices that are duplicates: none is missed and none is made up. */
  lemma {:induction false} DuplicatesMean(rows: seq<Row>, id: nat, invoice: ExtractedInvoice, vendorId: nat)
    requires id < |rows| && VendorIs(rows[id], vendorId)
    requires invoice.invoiceNumber.Some? && invoice.invoiceNumber.value != ""
    ensures forall j :: j in DuplicatesOf(rows, id, invoice, Last(rows[id].matches))
                        <==> 0 <= j < |rows| && j != id && Duplicates(rows[j], vendorId, invoice.invoiceNumber.value)
  {
    MatchedVendorIs(rows[id], vendorId);
    forall j | 0 <= j < |rows|
      ensures Competes(rows, id, vendorId, invoice.invoiceNumber.value, j)
              <==> j != id && Duplicates(rows[j], vendorId, invoice.invoiceNumber.value)
    {
      CompetesMeans(rows, id, vendorId, invoice.invoiceNumber.value, j);
    }
  }

  // ---- what a stage writes -----------------------------------------------------------------

  /** The log after entries by the system along these statuses. */
  function BySystem(from: Status, to: Status, note: Note): AuditEntry {
    AuditEntry(from, to, "system", Some(note))
  }

  /** Everything but the log, the status and the failure reason is the same. */
  predicate SameChildren(a: Row, b: Row) {
    a.extractions == b.extractions && a.matches == b.matches && a.validations == b.validations && a.exports == b.exports
  }

  /** A legal move sets the status and appends one entry, by the given actor for the given reason. */
  lemma {:induction false} AdvancedMeans(row: Row, target: Status, actor: string, reason: Option<Note>)
    ensures var r := Advanced(row, target, actor, reason);
            && (r.Some? <==> CanTransition(row.status, target))
            && (r.Some? ==>
                  && r.value.status == target
                  && r.value.audit == row.audit + [AuditEntry(row.status, target, actor, reason)]
                  && r.value.failureReason == row.failureReason
                  && SameChildren(r.value, row))
  {
  }

  /** A decision in review is recorded under the reviewer's name, with the reviewer's reason. */
  lemma {:induction false} HumanVerdictMeans(row: Row, approve: bool, actor: string, reason: Option<Note>)
    ensures var v := HumanVerdict(row, approve, actor, reason);
            var target := if approve then Approved else Rejected;
            && (row.status != NeedsReview ==> v.Raised?)
            && (row.status == NeedsReview ==>
                  && v.Done?
                  && v.row.status == target
                  && v.row.audit == row.audit + [AuditEntry(NeedsReview, target, actor, reason)]
                  && v.row.failureReason == row.failureReason && SameChildren(v.row, row)
                  && v.next == (if approve then Some(ExportInvoice) else None))
  {
    match row.status case _ =>
  }

  // ---- extraction -----------------------------------------------------------------------------

  /** A failed attempt, as it is recorded. */
  predicate FailsWith(v: Verdict, row: Row, error: Note, attempts: nat, raw: Option<string>) {
    && v.Done? && v.next == None
    && v.row.status == Failed
    && v.row.failureReason == Some(error)
    && v.row.extractions == row.extractions + [Extraction(false, attempts, None, None, Some(error), raw)]
    && v.row.audit == row.audit + [BySystem(Received, Extracting, StartingExtraction)] + [BySystem(Extracting, Failed, error)]
    && v.row.matches == row.matches && v.row.validations == row.validations && v.row.exports == row.exports
  }

  /** A successful attempt, as it is recorded. */
  predicate SucceedsWith(v: Verdict, row: Row, result: ExtractionResult, attempts: nat, raw: string) {
    && v.Done? && v.next == Some(MatchInvoice)
    && v.row.status == Extracted
    && v.row.failureReason == None
    && v.row.extractions
       == row.extractions + [Extraction(true, attempts, Some(result.invoice), Some(result.confidence), None, Some(raw))]
    && v.row.audit == row.audit + [BySystem(Received, Extracting, StartingExtraction)] + [BySystem(Extracting, Extracted, ExtractedIn(attempts))]
    && v.row.matches == row.matches && v.row.validations == row.validations && v.row.exports == row.exports
  }

  lemma {:induction false} RecordedFailure(row: Row, input: Input, error: Note, attempts: nat, raw: Option<string>)
    requires row.status == Received && Attempt(input) == Some(FailedExtraction(error, attempts, raw))
    ensures FailsWith(ExtractionVerdict(row, input), row, error, attempts, raw)
  {
  }

  lemma {:induction false} RecordedSuccess(row: Row, input: Input, result: ExtractionResult, attempts: nat, raw: string)
    requires row.status == Received
    requires Attempt(input) == Some(Extraction(true, attempts, Some(result.invoice), Some(result.confidence), None, Some(raw)))
    ensures SucceedsWith(ExtractionVerdict(row, input), row, result, attempts, raw)
  {
  }

  lemma {:induction false} BlankText(s: string)
    ensures Strip(s) == "" <==> AllBlank(s)
  {
    var i, j := StripTrims(s);
  }

  /** A document without text, and a client that cannot be had, fail the invoice without a call. */
  lemma {:induction false} NoCallMeans(row: Row, input: Input)
    requires row.status == Received
    ensures AllBlank(input.documentText) ==>
              FailsWith(ExtractionVerdict(row, input), row, EmptyDocument, 0, None)
    ensures !AllBlank(input.documentText) && input.clientError.Some? ==>
              FailsWith(ExtractionVerdict(row, input), row, NoClient(input.clientError.value), 0, None)
  {
    BlankText(input.documentText);
    if AllBlank(input.documentText) {
      RecordedFailure(row, input, EmptyDocument, 0, None);
    } else if input.clientError.Some? {
      RecordedFailure(row, input, NoClient(input.clientError.value), 0, None);
    }
  }

  /**
   With text and a client: a full budget of malformed replies fails the invoice with
   all errors and the last reply; otherwise the first well-formed reply within the
   budget is recorded with the number of calls; if instead the model cannot be
   reached, nothing is written.
   */
  lemma {:induction false} CallsMean(row: Row, input: Input) returns (errors: seq<string>)
    requires row.status == Received && !AllBlank(input.documentText) && input.clientError.None? && input.maxRetries >= 0
    ensures AllMalformed(input.replies, input.maxRetries + 1) ==>
              && |errors| == input.maxRetries + 1
              && (forall i :: 0 <= i <= input.maxRetries ==> errors[i] == input.replies[i].error)
              && FailsWith(ExtractionVerdict(row, input), row, ResponsesRejected(errors),
                           input.maxRetries + 1, Some(input.replies[input.maxRetries].raw))
    ensures forall i :: 0 <= i <= input.maxRetries && Decides(input.replies, i) ==>
              if i < |input.replies| && input.replies[i].Valid?
              then SucceedsWith(ExtractionVerdict(row, input), row, input.replies[i].result, i + 1, input.replies[i].raw)
              else ExtractionVerdict(row, input).Raised?
  {
    BlankText(input.documentText);
    OutcomeMeans(input.replies, input.maxRetries);
    var n := input.maxRetries;
    var o := Outcome(input.replies, n);
    errors := [];
    if AllMalformed(input.replies, n + 1) {
      errors := o.errors;
      RecordedFailure(row, input, ResponsesRejected(errors), n + 1, Some(input.replies[n].raw));
    }
    forall i | 0 <= i <= n && Decides(input.replies, i)
      ensures if i < |input.replies| && input.replies[i].Valid?
              then SucceedsWith(ExtractionVerdict(row, input), row, input.replies[i].result, i + 1, input.replies[i].raw)
              else ExtractionVerdict(row, input).Raised?
    {
      if i < |input.replies| && input.replies[i].Valid? {
        RecordedSuccess(row, input, input.replies[i].result, i + 1, input.replies[i].raw);
      }
    }
  }

  /** With a negative number of retries the model is never called, and the invoice fails without an error to show. */
  lemma {:induction false} NoRetriesMean(row: Row, input: Input)
    requires row.status == Received && !AllBlank(input.documentText) && input.clientError.None? && input.maxRetries < 0
    ensures FailsWith(ExtractionVerdict(row, input), row, ResponsesRejected([]), 0, Some(""))
  {
    BlankText(input.documentText);
    NoRetriesNoCalls(input.replies, input.maxRetries);
    RecordedFailure(row, input, ResponsesRejected([]), 0, Some(""));
  }

  // ---- matching -------------------------------------------------------------------------------------

  /** The match of an invoice on these tables: its vendor, its order, and nothing else about either. */
  ghost predicate IsMatch(ratio: Ratio, vendors: seq<Vendor>, orders: seq<PurchaseOrder>, invoice: ExtractedInvoice, m: Match) {
    && (forall p: nat :: m.vendor.vendorId == Some(p)
                         <==> Resolves(ratio, invoice.supplierTaxId, invoice.supplierName, vendors, p))
    && (forall i: nat :: m.po.poId == Some(i) <==> OnlyQuoted(invoice.purchaseOrderNumber, orders, i))
    && (m.vendor.vendorId.Some? <==> m.vendor.how in {ByTaxId, ByExactName, ByFuzzyName})
    && (m.po.poId.Some? <==> m.po.how == ExactNumber)
  }

  lemma {:induction false} MatchOfMeans(ratio: Ratio, vendors: seq<Vendor>, orders: seq<PurchaseOrder>, invoice: ExtractedInvoice)
    ensures IsMatch(ratio, vendors, orders, invoice, MatchOf(ratio, vendors, orders, invoice))
  {
    forall p: nat
      ensures VendorMatch(ratio, invoice.supplierTaxId, invoice.supplierName, Identities(vendors)).vendorId == Some(p)
              <==> Resolves(ratio, invoice.supplierTaxId, invoice.supplierName, vendors, p)
    {
      MatchedVendorMeans(ratio, invoice.supplierTaxId, invoice.supplierName, vendors, p);
    }
    forall i: nat
      ensures PoMatch(invoice.purchaseOrderNumber, OrderIdentities(orders)).poId == Some(i)
              <==> OnlyQuoted(invoice.purchaseOrderNumber, orders, i)
    {
      MatchedOrderMeans(invoice.purchaseOrderNumber, orders, i);
    }
    VendorMatchNeverGuesses(ratio, invoice.supplierTaxId, invoice.supplierName, Identities(vendors));
    PoMatchMeans(invoice.purchaseOrderNumber, OrderIdentities(orders));
  }

  lemma {:induction false} MatchIsOfInvoice(
    ratio: Ratio, vendors: seq<Vendor>, orders: seq<PurchaseOrder>, row: Row, invoice: ExtractedInvoice)
    requires Data(row) == Some(invoice)
    ensures exists held :: Holds(row, held)
                           && IsMatch(ratio, vendors, orders, held, MatchOf(ratio, vendors, orders, invoice))
  {
    DataMeans(row, invoice);
    MatchOfMeans(ratio, vendors, orders, invoice);
  }

  lemma {:induction false} MatchingWrites(ratio: Ratio, vendors: seq<Vendor>, orders: seq<PurchaseOrder>, row: Row, invoice: ExtractedInvoice)
    requires row.status == Extracted && Data(row) == Some(invoice)
    ensures var v, m := MatchingVerdict(ratio, vendors, orders, row), MatchOf(ratio, vendors, orders, invoice);
            && v.Done? && v.next == Some(ValidateInvoice)
            && v.row.status == Validating && v.row.failureReason == row.failureReason
            && v.row.matches == row.matches + [m]
            && v.row.audit == row.audit + [BySystem(Extracted, Matching, StartingMatching)]
                              + [BySystem(Matching, Validating, MatchedBy(m.vendor.how, m.po.how))]
            && v.row.extractions == row.extractions && v.row.validations == row.validations && v.row.exports == row.exports
  {
  }

  /** Matching adds the match of the latest extracted invoice on the tables as they are, and goes on to validation. */
  lemma {:induction false} MatchingMeans(ratio: Ratio, vendors: seq<Vendor>, orders: seq<PurchaseOrder>, row: Row, invoice: ExtractedInvoice)
    returns (m: Match)
    requires row.status == Extracted && Holds(row, invoice)
    ensures IsMatch(ratio, vendors, orders, invoice, m)
    ensures var v := MatchingVerdict(ratio, vendors, orders, row);
            && v.Done? && v.next == Some(ValidateInvoice)
            && v.row.status == Validating && v.row.failureReason == row.failureReason
            && v.row.matches == row.matches + [m]
            && v.row.audit == row.audit + [BySystem(Extracted, Matching, StartingMatching)]
                              + [BySystem(Matching, Validating, MatchedBy(m.vendor.how, m.po.how))]
            && v.row.extractions == row.extractions && v.row.validations == row.validations && v.row.exports == row.exports
  {
    DataMeans(row, invoice);
    m := MatchOf(ratio, vendors, orders, invoice);
    MatchOfMeans(ratio, vendors, orders, invoice);
    MatchingWrites(ratio, vendors, orders, row, invoice);
  }

  // ---- validation -----------------------------------------------------------------------------------------

  /** What the rules are given: the invoice, its vendor, the very row of its order, its duplicates. */
  ghost predicate RulesSee(inp: ValidationInput, orders: seq<PurchaseOrder>, rows: seq<Row>, id: nat, invoice: ExtractedInvoice)
    requires id < |rows|
  {
    && inp.invoice == invoice
    && (forall p: nat :: inp.matchedVendorId == Some(p) <==> VendorIs(rows[id], p))
    && (inp.matchedPo.Some? <==> exists i: nat :: OrderIs(rows[id], i) && i < |orders|)
    && (forall i: nat :: OrderIs(rows[id], i) && i < |orders| ==>
          inp.matchedPo == Some(PoSnapshot(orders[i].poNumber, orders[i].currency, orders[i].total, orders[i].vendorId)))
    && (forall p: nat :: VendorIs(rows[id], p) && invoice.invoiceNumber.Some? && invoice.invoiceNumber.value != "" ==>
          forall j :: j in inp.duplicateCandidates
                      <==> 0 <= j < |rows| && j != id && Duplicates(rows[j], p, invoice.invoiceNumber.value))
    && ((forall p: nat :: !VendorIs(rows[id], p)) ==> inp.duplicateCandidates == [])
  }

  lemma {:induction false} RulesSeeThis(orders: seq<PurchaseOrder>, rows: seq<Row>, id: nat, invoice: ExtractedInvoice)
    requires id < |rows|
    ensures var m := Last(rows[id].matches);
            RulesSee(ValidationInput(invoice, OrderSnapshot(orders, m), MatchedVendor(m), DuplicatesOf(rows, id, invoice, m)),
                     orders, rows, id, invoice)
  {
    var m := Last(rows[id].matches);
    forall p: nat ensures MatchedVendor(m) == Some(p) <==> VendorIs(rows[id], p) {
      MatchedVendorIs(rows[id], p);
    }
    if MatchedVendor(m).Some? {
      assert VendorIs(rows[id], MatchedVendor(m).value);
    }
    if OrderSnapshot(orders, m).Some? {
      assert OrderIs(rows[id], m.value.po.poId.value);
    }
    forall p: nat | VendorIs(rows[id], p) && invoice.invoiceNumber.Some? && invoice.invoiceNumber.value != ""
      ensures forall j :: j in DuplicatesOf(rows, id, invoice, m)
                          <==> 0 <= j < |rows| && j != id && Duplicates(rows[j], p, invoice.invoiceNumber.value)
    {
      DuplicatesMean(rows, id, invoice, p);
    }
  }

  lemma {:induction false} RulesSeeInvoice(
    orders: seq<PurchaseOrder>, rows: seq<Row>, id: nat, invoice: ExtractedInvoice, inp: ValidationInput)
    requires id < |rows| && Data(rows[id]) == Some(invoice)
    requires var m := Last(rows[id].matches);
             inp == ValidationInput(invoice, OrderSnapshot(orders, m), MatchedVendor(m), DuplicatesOf(rows, id, invoice, m))
    ensures exists held, seen ::
              Holds(rows[id], held) && RulesSee(seen, orders, rows, id, held)
              && RunRules(seen) == RunRules(inp) && seen.duplicateCandidates == inp.duplicateCandidates
  {
    DataMeans(rows[id], invoice);
    RulesSeeThis(orders, rows, id, invoice);
  }

  lemma {:induction false} ValidationWrites(orders: seq<PurchaseOrder>, rows: seq<Row>, id: nat, invoice: ExtractedInvoice, inp: ValidationInput)
    requires id < |rows| && rows[id].status == Validating && Data(rows[id]) == Some(invoice)
    requires var m := Last(rows[id].matches);
             inp == ValidationInput(invoice, OrderSnapshot(orders, m), MatchedVendor(m), DuplicatesOf(rows, id, invoice, m))
    ensures var v, row := ValidationVerdict(orders, rows, id), rows[id];
            && v.Done? && v.next == Some(ApproveInvoice)
            && v.row.status == Validated && v.row.failureReason == row.failureReason
            && v.row.validations
               == row.validations + [Validation(RunRules(inp), inp.duplicateCandidates, !HasBlockingFailure(RunRules(inp)))]
            && v.row.audit == row.audit + [BySystem(Validating, Validated, RulesEvaluated(7, !HasBlockingFailure(RunRules(inp))))]
            && v.row.extractions == row.extractions && v.row.matches == row.matches && v.row.exports == row.exports
  {
  }

  /** Validation adds the outcome of the seven rules on what they are given, passed when none reports an error. */
  lemma {:induction false} ValidationMeans(orders: seq<PurchaseOrder>, rows: seq<Row>, id: nat, invoice: ExtractedInvoice)
    returns (inp: ValidationInput, passed: bool)
    requires id < |rows| && rows[id].status == Validating && Holds(rows[id], invoice)
    ensures RulesSee(inp, orders, rows, id, invoice)
    ensures passed <==> forall i :: 0 <= i < |RunRules(inp)| ==> RunRules(inp)[i].severity != Error
    ensures var v, row := ValidationVerdict(orders, rows, id), rows[id];
            && v.Done? && v.next == Some(ApproveInvoice)
            && v.row.status == Validated && v.row.failureReason == row.failureReason
            && v.row.validations == row.validations + [Validation(RunRules(inp), inp.duplicateCandidates, passed)]
            && v.row.audit == row.audit + [BySystem(Validating, Validated, RulesEvaluated(7, passed))]
            && v.row.extractions == row.extractions && v.row.matches == row.matches && v.row.exports == row.exports
  {
    var m := Last(rows[id].matches);
    DataMeans(rows[id], invoice);
    inp := ValidationInput(invoice, OrderSnapshot(orders, m), MatchedVendor(m), DuplicatesOf(rows, id, invoice, m));
    passed := !HasBlockingFailure(RunRules(inp));
    RulesSeeThis(orders, rows, id, invoice);
    ValidationWrites(orders, rows, id, invoice, inp);
    ErrorsBlock(inp);
  }

  lemma {:induction false} ErrorsBlock(inp: ValidationInput)
    ensures HasBlockingFailure(RunRules(inp)) <==> exists i :: 0 <= i < |RunRules(inp)| && RunRules(inp)[i].severity == Error
  {
    RulesReport(inp);
    if inp.matchedPo.Some? {
      OrderRulesReport(inp);
    } else {
      NoOrderNoReport(inp);
    }
  }

  /** An invoice is blocked as a duplicate exactly when there is one: another vendor or another number never blocks. */
  lemma {:induction false} OnlyDuplicatesBlock(
    inp: ValidationInput, orders: seq<PurchaseOrder>, rows: seq<Row>, id: nat, invoice: ExtractedInvoice, vendorId: nat)
    requires id < |rows| && RulesSee(inp, orders, rows, id, invoice) && VendorIs(rows[id], vendorId)
    requires invoice.invoiceNumber.Some? && invoice.invoiceNumber.value != ""
    ensures |RunRules(inp)| == 7
    ensures RunRules(inp)[6].severity == Error
            <==> exists j :: 0 <= j < |rows| && j != id && Duplicates(rows[j], vendorId, invoice.invoiceNumber.value)
  {
    RulesReport(inp);
    var d := inp.duplicateCandidates;
    assert d != [] ==> d[0] in d;
  }

  // ---- approval ----------------------------------------------------------------------------------------------

  /** All that stands between a validated invoice and payment without a human. */
  ghost predicate Payable(row: Row) {
    && row.validations != [] && row.validations[|row.validations| - 1].passed
    && row.matches != []
    && var m := row.matches[|row.matches| - 1];
    && m.vendor.vendorId.Some?
    && (m.vendor.how == ByTaxId || m.vendor.how == ByExactName || m.vendor.how == ByFuzzyName)
    && m.po.poId.Some?
    && exists i :: LatestOk(row.extractions, i) && Sure(row.extractions[i].confidence)
  }

  /** The stored confidence is at least three quarters on each of the five fields. */
  predicate Sure(confidence: Option<map<string, real>>) {
    && confidence.Some?
    && SureOf(confidence.value, "supplier_name")
    && SureOf(confidence.value, "invoice_number")
    && SureOf(confidence.value, "invoice_date")
    && SureOf(confidence.value, "currency")
    && SureOf(confidence.value, "total")
  }

  predicate SureOf(confidence: map<string, real>, f: string) {
    f in confidence && confidence[f] >= 0.75
  }

  lemma {:induction false} FieldsAreFive(f: string)
    ensures f in CRITICAL_FIELDS
            <==> f in {"supplier_name", "invoice_number", "invoice_date", "currency", "total"}
  {
    assert CRITICAL_FIELDS == ["currency", "invoice_date", "invoice_number", "supplier_name", "total"];
  }

  lemma {:induction false} SureMeans(e: Extraction)
    ensures (forall f :: f in CRITICAL_FIELDS ==> Confident(ConfidenceOf(e), f)) <==> Sure(e.confidence)
  {
    var c := ConfidenceOf(e);
    forall f ensures f in CRITICAL_FIELDS
                     <==> f in {"supplier_name", "invoice_number", "invoice_date", "currency", "total"} {
      FieldsAreFive(f);
    }
    assert "supplier_name" in CRITICAL_FIELDS && "invoice_number" in CRITICAL_FIELDS && "invoice_date" in CRITICAL_FIELDS
           && "currency" in CRITICAL_FIELDS && "total" in CRITICAL_FIELDS;
  }

  lemma {:induction false} DecisionMeansPayable(row: Row, v: Validation, e: Extraction)
    requires Last(row.validations) == Some(v) && LatestSuccessful(row.extractions) == Some(e)
    ensures DecisionFor(v, e, Last(row.matches)).outcome == if Payable(row) then AutoApproved else NeedsReview
  {
    var m := Last(row.matches);
    LatestSuccessfulMeans(row.extractions);
    SureMeans(e);
    DecisionOutcome(v.passed, VendorIdentified(m), HasPo(m), ConfidenceOf(e));
  }

  lemma {:induction false} ApprovalWrites(row: Row, v: Validation, e: Extraction, d: ApprovalDecision)
    requires row.status == Validated && Last(row.validations) == Some(v) && LatestSuccessful(row.extractions) == Some(e)
    requires d == DecisionFor(v, e, Last(row.matches)) && d.outcome in {AutoApproved, NeedsReview}
    ensures var r := ApprovalVerdict(row);
            && r.Done? && r.next == (if d.outcome == AutoApproved then Some(ExportInvoice) else None)
            && r.row.status == d.outcome && r.row.failureReason == row.failureReason
            && r.row.audit == row.audit + [BySystem(Validated, d.outcome, DecisionReasons(d.reasons))]
            && SameChildren(r.row, row)
  {
  }

  /** A validated invoice is approved by the system exactly when it is payable, and goes to review otherwise. */
  lemma {:induction false} ApprovalMeans(row: Row) returns (reasons: seq<Reason>)
    requires row.status == Validated && row.validations != [] && exists i :: LatestOk(row.extractions, i)
    ensures var r, outcome := ApprovalVerdict(row), if Payable(row) then AutoApproved else NeedsReview;
            && r.Done? && r.next == (if Payable(row) then Some(ExportInvoice) else None)
            && r.row.status == outcome && r.row.failureReason == row.failureReason
            && r.row.audit == row.audit + [BySystem(Validated, outcome, DecisionReasons(reasons))]
            && SameChildren(r.row, row)
  {
    LatestSuccessfulMeans(row.extractions);
    var v, e := row.validations[|row.validations| - 1], LatestSuccessful(row.extractions).value;
    var d := DecisionFor(v, e, Last(row.matches));
    DecisionMeansPayable(row, v, e);
    ApprovalWrites(row, v, e, d);
    reasons := d.reasons;
  }

  // ---- export -----------------------------------------------------------------------------------------------------

  /** The last entry of the log that approves. */
  predicate LastApproval(audit: seq<AuditEntry>, k: int) {
    && 0 <= k < |audit| && (audit[k].to == AutoApproved || audit[k].to == Approved)
    && forall i :: k < i < |audit| ==> audit[i].to != AutoApproved && audit[i].to != Approved
  }

  lemma {:induction false} ApprovalEntryMeans(audit: seq<AuditEntry>, k: int)
    requires LastApproval(audit, k)
    ensures ApprovalEntry(audit) == Some(audit[k])
  {
    if k < |audit| - 1 {
      ApprovalEntryMeans(audit[..|audit| - 1], k);
    }
  }

  lemma {:induction false} ExportWrites(row: Row, id: nat, key: string, invoice: ExtractedInvoice, entry: AuditEntry)
    requires row.status in {AutoApproved, Approved} && Data(row) == Some(invoice) && row.matches != []
    requires ApprovalEntry(row.audit + [BySystem(row.status, Exporting, StartingExport)]) == Some(entry)
    ensures var v, m := ExportVerdict(row, id, key), row.matches[|row.matches| - 1];
            && v.Done? && v.next == None
            && v.row.status == Exported && v.row.failureReason == row.failureReason
            && v.row.exports == row.exports
               + [Export(key, Payload(id, row.status, invoice, m.vendor.vendorId, m.po.poId, Some(entry.actor), entry.reason))]
            && v.row.audit == row.audit + [BySystem(row.status, Exporting, StartingExport)]
                              + [BySystem(Exporting, Exported, ExportedTo(key))]
            && v.row.extractions == row.extractions && v.row.matches == row.matches && v.row.validations == row.validations
  {
  }

  /** An export carries the invoice, the latest match and the last approval of the log, actor and reason included. */
  lemma {:induction false} ExportMeans(row: Row, id: nat, key: string, invoice: ExtractedInvoice, k: int)
    requires row.status in {AutoApproved, Approved} && Holds(row, invoice) && row.matches != [] && LastApproval(row.audit, k)
    ensures var v, m, entry := ExportVerdict(row, id, key), row.matches[|row.matches| - 1], row.audit[k];
            && v.Done? && v.next == None
            && v.row.status == Exported && v.row.failureReason == row.failureReason
            && v.row.exports == row.exports
               + [Export(key, Payload(id, row.status, invoice, m.vendor.vendorId, m.po.poId, Some(entry.actor), entry.reason))]
            && v.row.audit == row.audit + [BySystem(row.status, Exporting, StartingExport)]
                              + [BySystem(Exporting, Exported, ExportedTo(key))]
            && v.row.extractions == row.extractions && v.row.matches == row.matches && v.row.validations == row.validations
  {
    DataMeans(row, invoice);
    var log := row.audit + [BySystem(row.status, Exporting, StartingExport)];
    assert LastApproval(log, k);
    ApprovalEntryMeans(log, k);
    ExportWrites(row, id, key, invoice, row.audit[k]);
  }
}
