/**
 Duplicate exclusion. It holds of every run in which no task starts on an invoice
 that has moved on under another task still in flight; nothing else is asked of
 deliveries, interleavings, losses or human decisions.

 The policy that decides an approval is a parameter of all but the first and last
 lemmas: what matters is that it is a function of the row.
 */
module Exclusion {
  import opened Options
  import opened Lifecycle
  import opened Text
  import opened Rules
  import opened ApprovalPolicy
  import opened VendorMatching
  import opened Records
  import opened StageMeanings
  import opened RowInvariants
  import opened Pipeline
  import opened PipelineInvariants
  import opened PipelineFrames
  import opened PipelineRuns

  // ---- two invoices for the same thing --------------------------------------------------

  /** The part of a row that decides which invoices it competes with. */
  predicate SameIdentity(a: Row, b: Row) {
    a.extractions == b.extractions && a.matches == b.matches
  }

  /** Same matched vendor, same usable invoice number. */
  predicate SameCase(a: Row, b: Row) {
    && MatchedVendor(Last(a.matches)).Some?
    && MatchedVendor(Last(a.matches)) == MatchedVendor(Last(b.matches))
    && Data(a).Some? && Data(b).Some?
    && Numbered(Data(a).value) && Numbered(Data(b).value)
    && CanonicalNumber(Data(a).value.invoiceNumber.value) == CanonicalNumber(Data(b).value.invoiceNumber.value)
  }

  predicate Live(row: Row) {
    row.status !in {Failed, Rejected}
  }

  /** Cleared by its latest validation, or already approved by the system. */
  predicate Cleared(row: Row) {
    || (row.status == Validated && row.validations != [] && row.validations[|row.validations| - 1].passed)
    || ApprovedBySystem(row)
  }

  predicate Clash(a: Row, b: Row) {
    Cleared(a) && Cleared(b) && SameCase(a, b)
  }

  // ---- what validation and approval read --------------------------------------------------

  /** Validation clears an invoice only when no live invoice of the same vendor has its number. */
  lemma ClearedMeansAlone(orders: seq<PurchaseOrder>, rows: seq<Row>, id: nat, j: nat)
    requires id < |rows| && j < |rows| && j != id && Live(rows[j])
    requires ValidationVerdict(orders, rows, id).Done?
    requires var after := ValidationVerdict(orders, rows, id).row;
             after.status == Validated && after.validations[|after.validations| - 1].passed
    ensures !SameCase(ValidationVerdict(orders, rows, id).row, rows[j])
  {
    var row := rows[id];
    var m := Last(row.matches);
    var invoice := Data(row).value;
    var duplicates := DuplicatesOf(rows, id, invoice, m);
    CleanExactlyWhen(ValidationInput(invoice, OrderSnapshot(orders, m), MatchedVendor(m), duplicates));
    assert Numbered(invoice) ==> duplicates == [];
    if SameCase(row, rows[j]) {
      LatestMatchCounts(rows[j], MatchedVendor(m).value);
      assert Competes(rows, id, MatchedVendor(m).value, invoice.invoiceNumber.value, j);
    }
  }

  lemma LatestMatchCounts(row: Row, vendorId: nat)
    requires MatchedVendor(Last(row.matches)) == Some(vendorId)
    ensures MatchedTo(row, vendorId)
  {
    assert row.matches[|row.matches| - 1].vendor.vendorId == Some(vendorId);
  }

  /** The status that the policy gives a row; a missing prerequisite leaves it where it is. */
  function OutcomeOf(row: Row): Status {
    var v, e := Last(row.validations), LatestSuccessful(row.extractions);
    if v.Some? && e.Some? then DecisionFor(v.value, e.value, Last(row.matches)).outcome else row.status
  }

  type Chooser = Row -> Status

  function Policy(): Chooser {
    (row: Row) => OutcomeOf(row)
  }

  /** Only a passed validation is approved without a human. */
  ghost predicate Careful(policy: Chooser) {
    forall row :: policy(row) == AutoApproved && row.status == Validated ==> Cleared(row)
  }

  lemma PolicyIsCareful()
    ensures Careful(Policy())
  {
    forall row | Policy()(row) == AutoApproved && row.status == Validated ensures Cleared(row) {
      var v, e, m := Last(row.validations).value, LatestSuccessful(row.extractions).value, Last(row.matches);
      DecisionOutcome(v.passed, VendorIdentified(m), HasPo(m), ConfidenceOf(e));
    }
  }

  // ---- task runs ------------------------------------------------------------------------------

  /** A log that shows an approval by the system ends in one of two ways. */
  predicate Telling(row: Row) {
    ApprovedBySystem(row) ==> row.status in {AutoApproved, Exported}
  }

  /** The task run itself approves. */
  predicate Approves(f: Flight) {
    exists i :: |f.before.audit| <= i < |f.after.audit| && f.after.audit[i].to == AutoApproved
  }

  /** What the result of a task run is, kind by kind. */
  predicate Regular(policy: Chooser, f: Flight) {
    && Wakes(f.before.status) == Some(f.message.kind)
    && Continues(f.before, f.after)
    && Telling(f.before)
    && (Approves(f) <==> f.after.status == AutoApproved)
    && match f.message.kind
       case ExtractInvoice => f.after.status in {Extracted, Failed}
       case MatchInvoice => f.after.status in {Validating, Failed}
       case ValidateInvoice =>
         && SameIdentity(f.before, f.after)
         && f.after.status == (if Data(f.before).Some? then Validated else Failed)
         && (f.after.status == Validated ==> |f.after.validations| > |f.before.validations|)
       case ApproveInvoice =>
         && SameIdentity(f.before, f.after) && f.after.validations == f.before.validations
         && f.after.status == policy(f.before)
         && f.after.status in {AutoApproved, NeedsReview}
       case ExportInvoice =>
         && SameIdentity(f.before, f.after) && f.after.validations == f.before.validations
         && f.after.status == Exported
  }

  /** How the row of an invoice stands to a task in flight: as it was read, or moved on by a like task. */
  predicate Standing(f: Flight, row: Row) {
    || row == f.before
    || match f.message.kind
       case ExtractInvoice => !ApprovedBySystem(row)
       case MatchInvoice => !ApprovedBySystem(row)
       case ValidateInvoice => SameIdentity(row, f.before) && row.status == f.after.status
       case ApproveInvoice =>
         && SameIdentity(row, f.before)
         && (if f.after.status == AutoApproved then row.status == AutoApproved else !ApprovedBySystem(row))
       case ExportInvoice => SameIdentity(row, f.before) && row.status == Exported
  }

  /** The row that a task in flight would leave if it committed now. */
  function Landed(f: Flight, row: Row): Row {
    Overwritten(row, f.before, f.after)
  }

  lemma LandedFacts(policy: Chooser, f: Flight, row: Row)
    requires Regular(policy, f)
    ensures var b := Landed(f, row);
            && b.status == f.after.status
            && (ApprovedBySystem(b) <==> ApprovedBySystem(row) || f.after.status == AutoApproved)
            && (f.message.kind !in {ExtractInvoice, MatchInvoice} ==> SameIdentity(b, row))
            && (f.message.kind in {ApproveInvoice, ExportInvoice} ==> b.validations == row.validations)
            && (f.message.kind == ValidateInvoice && f.after.status == Validated ==>
                  b.validations != [] && Last(b.validations) == Last(f.after.validations))
  {
    var b := Landed(f, row);
    var n, k := |row.audit|, |f.before.audit|;
    if f.after.status == AutoApproved {
      var i :| k <= i < |f.after.audit| && f.after.audit[i].to == AutoApproved;
      assert b.audit[n + (i - k)] == f.after.audit[i];
    }
    if ApprovedBySystem(row) {
      var i :| 0 <= i < n && row.audit[i].to == AutoApproved;
      assert b.audit[i] == row.audit[i];
    }
    if ApprovedBySystem(b) {
      var i :| 0 <= i < |b.audit| && b.audit[i].to == AutoApproved;
      assert i < n ==> row.audit[i] == b.audit[i];
      assert i >= n ==> f.after.audit[k + (i - n)] == b.audit[i];
    }
  }

  /** Behind a cleared row, committed or about to be, stands a live committed row with the same identity. */
  lemma LiveBehind(policy: Chooser, f: Flight, row: Row)
    requires Regular(policy, f) && Standing(f, row) && Telling(row) && Cleared(Landed(f, row))
    ensures Live(row) && SameIdentity(row, Landed(f, row))
  {
    LandedFacts(policy, f, row);
  }

  /** Two tasks of an invoice that read the same row: what is left for the second when the first commits. */
  lemma StandingAfter(policy: Chooser, f: Flight, g: Flight, row: Row)
    requires Regular(policy, f) && Regular(policy, g) && f.before == g.before
    requires Standing(f, row) && Standing(g, row) && Telling(row)
    ensures var b := Landed(f, row);
            && Telling(b) && Standing(g, b)
            && (Cleared(Landed(g, b)) ==> Cleared(Landed(g, row)) && SameIdentity(Landed(g, b), Landed(g, row)))
  {
    var b := Landed(f, row);
    LandedFacts(policy, f, row);
    LandedFacts(policy, g, row);
    LandedFacts(policy, g, b);
  }

  // ---- what every such run keeps --------------------------------------------------------------------

  /** `row` is the committed row of invoice `id`, or the row that a task in flight would leave. */
  predicate Prospect(w: World, id: int, row: Row) {
    && 0 <= id < |w.rows|
    && (row == w.rows[id]
        || exists k :: k in w.flights && w.flights[k].message.id == id && row == Landed(w.flights[k], w.rows[id]))
  }

  predicate FlightRegular(policy: Chooser, w: World, f: Flight) {
    && f.message.id < |w.rows|
    && Regular(policy, f)
    && Standing(f, w.rows[f.message.id])
  }

  predicate FlightsRegular(policy: Chooser, w: World) {
    && (forall k :: k in w.flights ==> FlightRegular(policy, w, w.flights[k]))
    && (forall j, k :: j in w.flights && k in w.flights && w.flights[j].message.id == w.flights[k].message.id ==>
          w.flights[j].before == w.flights[k].before)
  }

  predicate RowsTelling(w: World) {
    forall i :: 0 <= i < |w.rows| ==> Telling(w.rows[i])
  }

  ghost predicate NoClash(w: World) {
    forall i, j, a, b :: i != j && Prospect(w, i, a) && Prospect(w, j, b) ==> !Clash(a, b)
  }

  ghost predicate Guarded(policy: Chooser, w: World) {
    RowsTelling(w) && FlightsRegular(policy, w) && NoClash(w)
  }

  /** Every prospect of `u` is one of `w`, or is cleared only if one of `w` with its identity is. */
  ghost predicate NothingNew(w: World, u: World) {
    forall i, a :: Prospect(u, i, a) && Cleared(a) ==>
      exists c :: Prospect(w, i, c) && Cleared(c) && SameIdentity(a, c)
  }

  lemma NothingNewNoClash(w: World, u: World)
    requires NoClash(w) && NothingNew(w, u)
    ensures NoClash(u)
  {
    forall i, j, a, b | i != j && Prospect(u, i, a) && Prospect(u, j, b) && Cleared(a) && Cleared(b) ensures !Clash(a, b) {
      var c :| Prospect(w, i, c) && Cleared(c) && SameIdentity(a, c);
      var d :| Prospect(w, j, d) && Cleared(d) && SameIdentity(b, d);
      PairwiseNoClash(w, i, j, a, b, c, d);
    }
  }

  lemma PairwiseNoClash(w: World, i: int, j: int, a: Row, b: Row, c: Row, d: Row)
    requires NoClash(w) && i != j && Prospect(w, i, c) && Prospect(w, j, d) && Cleared(c) && Cleared(d)
    requires SameIdentity(a, c) && SameIdentity(b, d)
    ensures !SameCase(a, b)
  {
    assert !Clash(c, d);
    SameCaseFollowsIdentity(a, b, c, d);
  }

  lemma SameCaseFollowsIdentity(a: Row, b: Row, c: Row, d: Row)
    requires SameIdentity(a, c) && SameIdentity(b, d)
    ensures SameCase(a, b) <==> SameCase(c, d)
  {
  }

  // ---- messages, tables, arrivals and aborts ------------------------------------------------------------

  /** No row changes and no task starts. */
  lemma FewerFlightsGuarded(policy: Chooser, w: World, u: World)
    requires Guarded(policy, w) && u.rows == w.rows
    requires forall k :: k in u.flights ==> k in w.flights && u.flights[k] == w.flights[k]
    ensures Guarded(policy, u)
  {
    forall k | k in u.flights ensures FlightRegular(policy, u, u.flights[k]) {
      assert FlightRegular(policy, w, w.flights[k]);
    }
    forall i, a | Prospect(u, i, a) && Cleared(a) ensures Prospect(w, i, a) && SameIdentity(a, a) {
    }
    NothingNewNoClash(w, u);
  }

  lemma ArriveGuarded(policy: Chooser, w: World, u: World)
    requires Guarded(policy, w) && u.rows == w.rows + [NEW_ROW] && u.flights == w.flights
    ensures Guarded(policy, u)
  {
    forall k | k in u.flights ensures FlightRegular(policy, u, u.flights[k]) {
      assert FlightRegular(policy, w, w.flights[k]);
    }
    assert forall k :: k in u.flights ==> u.flights[k].message.id < |w.rows|;
    assert forall i :: 0 <= i < |w.rows| ==> u.rows[i] == w.rows[i];
    forall i, a | Prospect(u, i, a) && Cleared(a) ensures Prospect(w, i, a) && SameIdentity(a, a) {
    }
    NothingNewNoClash(w, u);
  }

  // ---- a task commits --------------------------------------------------------------------------------------

  /** Invoice `id` gets a new row under which every task still in flight stands as before or worse. */
  lemma RewriteGuarded(policy: Chooser, w: World, u: World, id: nat)
    requires Guarded(policy, w) && id < |w.rows| && |u.rows| == |w.rows| && Telling(u.rows[id])
    requires forall i :: 0 <= i < |w.rows| && i != id ==> u.rows[i] == w.rows[i]
    requires forall k :: k in u.flights ==> k in w.flights && u.flights[k] == w.flights[k]
    requires Cleared(u.rows[id]) ==>
               exists c :: Prospect(w, id, c) && Cleared(c) && SameIdentity(u.rows[id], c)
    requires forall k :: k in u.flights && u.flights[k].message.id == id ==>
               var g := u.flights[k];
               && Standing(g, u.rows[id])
               && (Cleared(Landed(g, u.rows[id])) ==>
                     Cleared(Landed(g, w.rows[id])) && SameIdentity(Landed(g, u.rows[id]), Landed(g, w.rows[id])))
    ensures Guarded(policy, u)
  {
    forall k | k in u.flights ensures FlightRegular(policy, u, u.flights[k]) {
      assert FlightRegular(policy, w, w.flights[k]);
    }
    forall i, a | Prospect(u, i, a) && Cleared(a)
      ensures exists c :: Prospect(w, i, c) && Cleared(c) && SameIdentity(a, c)
    {
      if i != id {
        assert Prospect(w, i, a) && SameIdentity(a, a);
      } else if a != u.rows[id] {
        var k :| k in u.flights && u.flights[k].message.id == i && a == Landed(u.flights[k], u.rows[i]);
        assert Prospect(w, i, Landed(w.flights[k], w.rows[i]));
      }
    }
    NothingNewNoClash(w, u);
  }

  lemma CommitGuarded(policy: Chooser, w: World, k: nat)
    requires Guarded(policy, w) && k in w.flights
    ensures Guarded(policy, Finished(w, k))
  {
    var u, f := Finished(w, k), w.flights[k];
    var row := w.rows[f.message.id];
    assert FlightRegular(policy, w, f);
    StandingAfter(policy, f, f, row);
    assert Prospect(w, f.message.id, Landed(f, row)) && SameIdentity(Landed(f, row), Landed(f, row));
    forall j | j in u.flights && u.flights[j].message.id == f.message.id
      ensures var g := u.flights[j];
              && Standing(g, Landed(f, row))
              && (Cleared(Landed(g, Landed(f, row))) ==>
                    Cleared(Landed(g, row)) && SameIdentity(Landed(g, Landed(f, row)), Landed(g, row)))
    {
      assert FlightRegular(policy, w, w.flights[j]);
      StandingAfter(policy, f, w.flights[j], row);
    }
    RewriteGuarded(policy, w, u, f.message.id);
  }

  // ---- a human decides -----------------------------------------------------------------------------------------

  lemma ReviewedFacts(row: Row, approve: bool, actor: string, reason: Option<Note>)
    requires row.status == NeedsReview && Telling(row) && HumanVerdict(row, approve, actor, reason).Done?
    ensures var r := HumanVerdict(row, approve, actor, reason).row;
            !ApprovedBySystem(r) && r.status in {Approved, Rejected}
            && SameIdentity(r, row) && r.validations == row.validations
  {
    var r := HumanVerdict(row, approve, actor, reason).row;
    var n := |row.audit|;
    assert r.audit[..n] == row.audit && |r.audit| == n + 1 && r.audit[n].to != AutoApproved;
    assert forall i :: 0 <= i < n ==> r.audit[i] == row.audit[i];
  }

  /** Only approvals can be in flight for an invoice in review, and none of them approves. */
  lemma StandingInReview(policy: Chooser, f: Flight, row: Row, r: Row)
    requires Regular(policy, f) && Standing(f, row) && row.status == NeedsReview && Telling(row)
    requires !ApprovedBySystem(r) && SameIdentity(r, row) && r.validations == row.validations
    ensures Standing(f, r) && !Cleared(Landed(f, r))
  {
    LandedFacts(policy, f, r);
  }

  lemma DecideGuarded(policy: Chooser, w: World, id: nat, approve: bool, actor: string, reason: Option<Note>)
    requires Guarded(policy, w) && id < |w.rows|
    ensures Guarded(policy, Decided(w, id, approve, actor, reason))
  {
    var row := w.rows[id];
    var u := Decided(w, id, approve, actor, reason);
    HumanFollowsStatus(row, approve, actor, reason);
    if row.status == NeedsReview {
      ReviewedFacts(row, approve, actor, reason);
      forall k | k in u.flights && u.flights[k].message.id == id
        ensures Standing(u.flights[k], u.rows[id]) && !Cleared(Landed(u.flights[k], u.rows[id]))
      {
        assert FlightRegular(policy, w, w.flights[k]);
        StandingInReview(policy, w.flights[k], row, u.rows[id]);
      }
      RewriteGuarded(policy, w, u, id);
    }
  }

  // ---- a task starts ------------------------------------------------------------------------------------------------

  lemma ExtractionIsRegular(policy: Chooser, id: nat, row: Row, input: Input)
    requires Telling(row) && ExtractionVerdict(row, input).Done?
    ensures var v := ExtractionVerdict(row, input);
            Regular(policy, Flight(Message(ExtractInvoice, id), row, v.row, v.next))
  {
    ExtractionContinues(row, input);
  }

  lemma MatchingIsRegular(policy: Chooser, ratio: Ratio, vendors: seq<Vendor>, orders: seq<PurchaseOrder>, id: nat, row: Row)
    requires Telling(row) && MatchingVerdict(ratio, vendors, orders, row).Done?
    ensures var v := MatchingVerdict(ratio, vendors, orders, row);
            Regular(policy, Flight(Message(MatchInvoice, id), row, v.row, v.next))
  {
    MatchingContinues(ratio, vendors, orders, row);
  }

  lemma ValidationIsRegular(policy: Chooser, orders: seq<PurchaseOrder>, rows: seq<Row>, id: nat)
    requires id < |rows| && Telling(rows[id]) && ValidationVerdict(orders, rows, id).Done?
    ensures var v := ValidationVerdict(orders, rows, id);
            Regular(policy, Flight(Message(ValidateInvoice, id), rows[id], v.row, v.next))
  {
  }

  lemma ApprovalIsRegular(id: nat, row: Row)
    requires Telling(row) && ApprovalVerdict(row).Done?
    ensures var v := ApprovalVerdict(row);
            Regular(Policy(), Flight(Message(ApproveInvoice, id), row, v.row, v.next))
  {
    ApprovalFits(row);
    var r := ApprovalVerdict(row).row;
    OutcomeIsOneOfTwo(Last(row.validations).value, LatestSuccessful(row.extractions).value, Last(row.matches));
    assert r.audit[|row.audit|].to == r.status;
  }

  lemma ExportIsRegular(policy: Chooser, id: nat, row: Row, key: string)
    requires Telling(row) && ExportVerdict(row, id, key).Done?
    ensures var v := ExportVerdict(row, id, key);
            Regular(policy, Flight(Message(ExportInvoice, id), row, v.row, v.next))
  {
    ExportContinues(row, id, key);
  }

  lemma StageIsRegular(
    ratio: Ratio, vendors: seq<Vendor>, orders: seq<PurchaseOrder>, rows: seq<Row>, m: Message, input: Input)
    requires m.id < |rows| && Telling(rows[m.id])
    requires Handle(ratio, vendors, orders, rows, m.kind, m.id, input).Done?
    ensures var v := Handle(ratio, vendors, orders, rows, m.kind, m.id, input);
            Regular(Policy(), Flight(m, rows[m.id], v.row, v.next))
  {
    match m.kind {
      case ExtractInvoice => ExtractionIsRegular(Policy(), m.id, rows[m.id], input);
      case MatchInvoice => MatchingIsRegular(Policy(), ratio, vendors, orders, m.id, rows[m.id]);
      case ValidateInvoice => ValidationIsRegular(Policy(), orders, rows, m.id);
      case ApproveInvoice => ApprovalIsRegular(m.id, rows[m.id]);
      case ExportInvoice => ExportIsRegular(Policy(), m.id, rows[m.id], input.exportKey);
    }
  }

  lemma ProspectIsLive(policy: Chooser, w: World, j: int, b: Row)
    requires Guarded(policy, w) && Prospect(w, j, b) && Cleared(b)
    ensures Live(w.rows[j]) && SameIdentity(w.rows[j], b)
  {
    if b != w.rows[j] {
      var k :| k in w.flights && w.flights[k].message.id == j && b == Landed(w.flights[k], w.rows[j]);
      assert FlightRegular(policy, w, w.flights[k]);
      LiveBehind(policy, w.flights[k], w.rows[j]);
    }
  }

  /** If a task clears its invoice, the invoice was cleared already, or it has just been validated. */
  lemma ClearedBefore(policy: Chooser, f: Flight)
    requires Regular(policy, f) && Careful(policy) && Cleared(f.after)
    ensures SameIdentity(f.before, f.after)
    ensures Cleared(f.before)
            || (f.message.kind == ValidateInvoice && f.after.status == Validated
                && f.after.validations[|f.after.validations| - 1].passed)
  {
    UndisturbedWrite(f.before, f.after);
    LandedFacts(policy, f, f.before);
  }

  /** Publish, then check: a new result clashes with nothing committed and with nothing in flight. */
  lemma NewResultIsAlone(policy: Chooser, w: World, f: Flight, j: int, b: Row)
    requires Guarded(policy, w) && Regular(policy, f) && Careful(policy)
    requires f.message.id < |w.rows| && f.before == w.rows[f.message.id]
    requires j != f.message.id && Prospect(w, j, b)
    requires f.message.kind == ValidateInvoice && f.after.status == Validated
             && f.after.validations[|f.after.validations| - 1].passed && Live(w.rows[j]) ==>
               !SameCase(f.after, w.rows[j])
    ensures !Clash(f.after, b) && !Clash(b, f.after)
  {
    if Cleared(f.after) && Cleared(b) {
      ClearedBefore(policy, f);
      ProspectIsLive(policy, w, j, b);
      SameCaseFollowsIdentity(f.after, b, f.after, w.rows[j]);
      SameCaseFollowsIdentity(f.after, b, f.before, b);
      assert Prospect(w, f.message.id, f.before);
      assert !Clash(f.before, b);
    }
  }

  lemma StartedProspect(w: World, u: World, worker: nat, f: Flight, i: int, a: Row)
    requires u.rows == w.rows && worker !in w.flights && u.flights == w.flights[worker := f]
    requires f.message.id < |w.rows| && f.before == w.rows[f.message.id] && Continues(f.before, f.after)
    requires Prospect(u, i, a)
    ensures Prospect(w, i, a) || (i == f.message.id && a == f.after)
  {
    UndisturbedWrite(f.before, f.after);
    if a != u.rows[i] {
      var k :| k in u.flights && u.flights[k].message.id == i && a == Landed(u.flights[k], u.rows[i]);
      assert k != worker ==> k in w.flights && w.flights[k] == u.flights[k];
    }
  }

  lemma StartGuarded(policy: Chooser, w: World, u: World, worker: nat, f: Flight)
    requires Guarded(policy, w) && Regular(policy, f)
    requires f.message.id < |w.rows| && f.before == w.rows[f.message.id] && !Overtaken(w, f.message.id)
    requires u.rows == w.rows && worker !in w.flights && u.flights == w.flights[worker := f]
    requires forall j, b :: j != f.message.id && Prospect(w, j, b) ==> !Clash(f.after, b) && !Clash(b, f.after)
    ensures Guarded(policy, u)
  {
    forall k | k in u.flights ensures FlightRegular(policy, u, u.flights[k]) {
      assert k != worker ==> FlightRegular(policy, w, w.flights[k]);
    }
    forall k | k in w.flights && w.flights[k].message.id == f.message.id ensures w.flights[k].before == f.before {
    }
    forall i, j, a, b | i != j && Prospect(u, i, a) && Prospect(u, j, b) ensures !Clash(a, b) {
      StartedProspect(w, u, worker, f, i, a);
      StartedProspect(w, u, worker, f, j, b);
    }
  }

  lemma ValidatedIsAlone(ratio: Ratio, w: World, m: Message, input: Input, j: int)
    requires m.id < |w.rows| && 0 <= j < |w.rows| && j != m.id && Live(w.rows[j])
    requires Handle(ratio, w.vendors, w.orders, w.rows, m.kind, m.id, input).Done? && m.kind == ValidateInvoice
    requires var after := Handle(ratio, w.vendors, w.orders, w.rows, m.kind, m.id, input).row;
             after.status == Validated && |after.validations| > 0 && after.validations[|after.validations| - 1].passed
    ensures !SameCase(Handle(ratio, w.vendors, w.orders, w.rows, m.kind, m.id, input).row, w.rows[j])
  {
    ClearedMeansAlone(w.orders, w.rows, m.id, j);
  }

  lemma NewFlightGuarded(ratio: Ratio, w: World, u: World, worker: nat, m: Message, input: Input)
    requires Guarded(Policy(), w) && m.id < |w.rows| && worker !in w.flights && !Overtaken(w, m.id)
    requires Handle(ratio, w.vendors, w.orders, w.rows, m.kind, m.id, input).Done?
    requires var v := Handle(ratio, w.vendors, w.orders, w.rows, m.kind, m.id, input);
             u.rows == w.rows && u.flights == w.flights[worker := Flight(m, w.rows[m.id], v.row, v.next)]
    ensures Guarded(Policy(), u)
  {
    var v := Handle(ratio, w.vendors, w.orders, w.rows, m.kind, m.id, input);
    var f := Flight(m, w.rows[m.id], v.row, v.next);
    StageIsRegular(ratio, w.vendors, w.orders, w.rows, m, input);
    PolicyIsCareful();
    forall j, b | j != m.id && Prospect(w, j, b) ensures !Clash(f.after, b) && !Clash(b, f.after) {
      if m.kind == ValidateInvoice && f.after.status == Validated
         && f.after.validations[|f.after.validations| - 1].passed && Live(w.rows[j]) {
        ValidatedIsAlone(ratio, w, m, input, j);
      }
      NewResultIsAlone(Policy(), w, f, j, b);
    }
    StartGuarded(Policy(), w, u, worker, f);
  }

  lemma StartedGuarded(ratio: Ratio, w: World, worker: nat, m: Message, input: Input)
    requires Guarded(Policy(), w) && m in w.queue && worker !in w.flights && !Overtaken(w, m.id)
    ensures Guarded(Policy(), Started(ratio, w, worker, m, input))
  {
    var u := Started(ratio, w, worker, m, input);
    var v := Handle(ratio, w.vendors, w.orders, w.rows, m.kind, m.id, input);
    if v.Done? {
      NewFlightGuarded(ratio, w, u, worker, m, input);
    } else {
      FewerFlightsGuarded(Policy(), w, u);
    }
  }

  // ---- every step, every run ------------------------------------------------------------------------------------------

  lemma LandingGuarded(started: World, k: nat, u: World)
    requires Guarded(Policy(), started)
    requires u == if k in started.flights then Finished(started, k) else started
    ensures Guarded(Policy(), u)
  {
    if k in started.flights {
      CommitGuarded(Policy(), started, k);
    }
  }

  lemma DeliverGuarded(ratio: Ratio, w: World, k: nat, m: Message, input: Input, u: World)
    requires Guarded(Policy(), w) && m in w.queue && k !in w.flights && !Overtaken(w, m.id)
    requires u == Apply(ratio, w, Deliver(k, m, input))
    ensures Guarded(Policy(), u)
  {
    var started := Started(ratio, w, k, m, input);
    StartedGuarded(ratio, w, k, m, input);
    DeliverIs(ratio, w, k, m, input, started);
    LandingGuarded(started, k, u);
  }

  lemma TaskGuarded(ratio: Ratio, w: World, s: Step)
    requires Guarded(Policy(), w) && Enabled(w, s) && !OvertakenStart(w, s)
    requires s.Begin? || s.Commit? || s.Deliver?
    ensures Guarded(Policy(), Apply(ratio, w, s))
  {
    match s {
      case Begin(k, m, input) => StartedGuarded(ratio, w, k, m, input);
      case Commit(k) => CommitGuarded(Policy(), w, k);
      case Deliver(k, m, input) => DeliverGuarded(ratio, w, k, m, input, Apply(ratio, w, s));
    }
  }

  lemma MessageGuarded(ratio: Ratio, w: World, s: Step)
    requires Guarded(Policy(), w) && Enabled(w, s) && (OfBroker(s) || s.Redeliver? || s.Abort?)
    ensures Guarded(Policy(), Apply(ratio, w, s))
  {
    FewerFlightsGuarded(Policy(), w, Apply(ratio, w, s));
  }

  lemma StepGuarded(ratio: Ratio, w: World, s: Step)
    requires Guarded(Policy(), w) && !OvertakenStart(w, s)
    ensures Guarded(Policy(), Apply(ratio, w, s))
  {
    if !Enabled(w, s) {
      assert Apply(ratio, w, s) == w;
    } else if s.Begin? || s.Commit? || s.Deliver? {
      TaskGuarded(ratio, w, s);
    } else if s.Decide? {
      DecideGuarded(Policy(), w, s.id, s.approve, s.actor, s.reason);
    } else if s.Arrive? {
      ArriveGuarded(Policy(), w, Apply(ratio, w, s));
    } else {
      MessageGuarded(ratio, w, s);
    }
  }

  lemma EmptyIsGuarded()
    ensures Guarded(Policy(), EMPTY)
  {
  }

  lemma {:induction false} RunGuarded(ratio: Ratio, run: seq<Step>)
    requires NeverOvertaken(ratio, run)
    ensures Guarded(Policy(), Exec(ratio, run))
  {
    if run == [] {
      EmptyIsGuarded();
    } else {
      var n := |run| - 1;
      LastStart(ratio, run);
      RunGuarded(ratio, run[..n]);
      StepGuarded(ratio, Exec(ratio, run[..n]), run[n]);
      ExecFront(ratio, run);
    }
  }

  /**
   Duplicate exclusion. Two distinct invoices that the system approved on its own
   never share the matched vendor and a non-empty invoice number, compared without
   surrounding blanks and without case.
   */
  lemma NoDoubleAutoApproval(ratio: Ratio, run: seq<Step>, a: nat, b: nat)
    requires NeverOvertaken(ratio, run) && a != b
    requires a < |Exec(ratio, run).rows| && b < |Exec(ratio, run).rows|
    requires ApprovedBySystem(Exec(ratio, run).rows[a]) && ApprovedBySystem(Exec(ratio, run).rows[b])
    ensures !SameCase(Exec(ratio, run).rows[a], Exec(ratio, run).rows[b])
  {
    var w := Exec(ratio, run);
    RunGuarded(ratio, run);
    assert Prospect(w, a, w.rows[a]) && Prospect(w, b, w.rows[b]);
    assert !Clash(w.rows[a], w.rows[b]);
  }

  /**
   The same in the words of the tables: two invoices whose logs show an approval by the
   system, matched to one vendor, whose latest extractions hold non-empty numbers,
   never have numbers that are the same text up to outer blanks and letter case.
   */
  lemma {:induction false} NoNumberIsPaidTwice(
    ratio: Ratio, run: seq<Step>, a: nat, b: nat, vendorId: nat, x: ExtractedInvoice, y: ExtractedInvoice, i: nat, j: nat)
    requires NeverOvertaken(ratio, run) && a != b
    requires a < |Exec(ratio, run).rows| && b < |Exec(ratio, run).rows|
    requires var row := Exec(ratio, run).rows[a];
             i < |row.audit| && row.audit[i].to == AutoApproved && VendorIs(row, vendorId) && Holds(row, x)
    requires var row := Exec(ratio, run).rows[b];
             j < |row.audit| && row.audit[j].to == AutoApproved && VendorIs(row, vendorId) && Holds(row, y)
    requires x.invoiceNumber.Some? && x.invoiceNumber.value != "" && y.invoiceNumber.Some? && y.invoiceNumber.value != ""
    ensures !SameText(x.invoiceNumber.value, y.invoiceNumber.value)
  {
    var w := Exec(ratio, run);
    DataMeans(w.rows[a], x);
    DataMeans(w.rows[b], y);
    MatchedVendorIs(w.rows[a], vendorId);
    MatchedVendorIs(w.rows[b], vendorId);
    CanonicalNumberDecides(x.invoiceNumber.value, y.invoiceNumber.value);
    assert ApprovedBySystem(w.rows[a]) && ApprovedBySystem(w.rows[b]);
    NoDoubleAutoApproval(ratio, run, a, b);
  }
}
