/** What every committed invoice row looks like, and that every stage keeps it so. */
module RowInvariants {
  import opened Options
  import opened Lifecycle
  import opened Rules
  import opened Text
  import opened VendorMatching
  import opened Records

  // ---- the audit log --------------------------------------------------------------

  /** The statuses an audit log records, from the first. */
  function Visited(audit: seq<AuditEntry>): (path: seq<Status>)
    ensures |path| == |audit| + 1 && path[0] == Received
    ensures forall i :: 0 <= i < |audit| ==> path[i + 1] == audit[i].to
  {
    [Received] + seq(|audit|, i requires 0 <= i < |audit| => audit[i].to)
  }

  /** Every hop starts where the one before it ended, and the first one at RECEIVED. */
  predicate Connected(audit: seq<AuditEntry>) {
    forall i :: 0 <= i < |audit| ==> audit[i].from == Visited(audit)[i]
  }

  const TO_VALIDATED: seq<Status> := [Received, Extracting, Extracted, Matching, Validating, Validated]

  /** The only road to a status; an export is reached either with a human's decision or without. */
  function Road(status: Status, human: bool): seq<Status> {
    match status
    case Received => [Received]
    case Failed => [Received, Extracting, Failed]
    case Extracted => [Received, Extracting, Extracted]
    case Validating => [Received, Extracting, Extracted, Matching, Validating]
    case Validated => TO_VALIDATED
    case AutoApproved => TO_VALIDATED + [AutoApproved]
    case NeedsReview => TO_VALIDATED + [NeedsReview]
    case Rejected => TO_VALIDATED + [NeedsReview, Rejected]
    case Approved => TO_VALIDATED + [NeedsReview, Approved]
    case Exported =>
      if human then TO_VALIDATED + [NeedsReview, Approved, Exporting, Exported]
      else TO_VALIDATED + [AutoApproved, Exporting, Exported]
    case _ => []
  }

  predicate OnRoad(row: Row) {
    && Connected(row.audit)
    && (Visited(row.audit) == Road(row.status, false) || Visited(row.audit) == Road(row.status, true))
  }

  // ---- the child rows ---------------------------------------------------------------

  predicate PastMatching(status: Status) {
    status in {Validating, Validated, NeedsReview, AutoApproved, Approved, Rejected, Exported}
  }

  predicate PastValidation(status: Status) {
    PastMatching(status) && status != Validating
  }

  /** Exactly the child rows that the status calls for. */
  predicate Complete(row: Row) {
    && |row.extractions| == (if row.status == Received then 0 else 1)
    && (row.status != Received ==>
          && (row.extractions[0].ok <==> row.status != Failed)
          && (row.extractions[0].ok ==> row.extractions[0].invoice.Some? && row.extractions[0].confidence.Some?))
    && |row.matches| == (if PastMatching(row.status) then 1 else 0)
    && |row.validations| == (if PastValidation(row.status) then 1 else 0)
    && |row.exports| == (if row.status == Exported then 1 else 0)
  }

  // ---- where the child rows come from ------------------------------------------------

  /** The match is what the matcher answered on an earlier state of both tables. */
  ghost predicate MatchJustified(ratio: Ratio, vendors: seq<Vendor>, orders: seq<PurchaseOrder>, invoice: ExtractedInvoice, m: Match) {
    exists v: nat, o: nat ::
      v <= |vendors| && o <= |orders| && m == MatchOf(ratio, vendors[..v], orders[..o], invoice)
  }

  predicate ApprovedBySystem(row: Row) {
    exists i :: 0 <= i < |row.audit| && row.audit[i].to == AutoApproved
  }

  ghost predicate Justified(ratio: Ratio, vendors: seq<Vendor>, orders: seq<PurchaseOrder>, id: nat, row: Row)
    requires Complete(row)
  {
    && (PastMatching(row.status) ==>
          MatchJustified(ratio, vendors, orders, row.extractions[0].invoice.value, row.matches[0]))
    && (PastValidation(row.status) ==>
          row.validations[0]
          == Judge(orders, row.extractions[0].invoice.value, Some(row.matches[0]), row.validations[0].duplicates))
    && (ApprovedBySystem(row) ==>
          && PastValidation(row.status)
          && DecisionFor(row.validations[0], row.extractions[0], Some(row.matches[0])).outcome == AutoApproved)
    && (row.status == Exported ==>
          && |row.audit| >= 3
          && row.exports[0].payload
             == PayloadOf(id, row.audit[|row.audit| - 3].to, row.extractions[0].invoice.value,
                          Some(row.matches[0]), Some(row.audit[|row.audit| - 3])))
  }

  ghost predicate Sound(ratio: Ratio, vendors: seq<Vendor>, orders: seq<PurchaseOrder>, id: nat, row: Row) {
    OnRoad(row) && Complete(row) && Justified(ratio, vendors, orders, id, row)
  }

  // ---- stages and statuses -------------------------------------------------------------

  /** A verdict fits a row: nothing to do for another kind, else a lower status and its own next task. */
  predicate Fits(row: Row, kind: Kind, v: Verdict) {
    && (v.Skipped? <==> Wakes(row.status) != Some(kind))
    && (v.Done? ==>
          v.next == Wakes(v.row.status) && Rank(v.row.status) < Rank(row.status) && !Transient(v.row.status))
  }

  lemma ExtractionFits(row: Row, input: Input)
    ensures Fits(row, ExtractInvoice, ExtractionVerdict(row, input))
  {
  }

  lemma MatchingFits(ratio: Ratio, vendors: seq<Vendor>, orders: seq<PurchaseOrder>, row: Row)
    ensures Fits(row, MatchInvoice, MatchingVerdict(ratio, vendors, orders, row))
  {
  }

  lemma ValidationFits(orders: seq<PurchaseOrder>, rows: seq<Row>, id: nat)
    requires id < |rows|
    ensures Fits(rows[id], ValidateInvoice, ValidationVerdict(orders, rows, id))
  {
  }

  lemma ApprovalFits(row: Row)
    ensures Fits(row, ApproveInvoice, ApprovalVerdict(row))
  {
    var v, e, m := Last(row.validations), LatestSuccessful(row.extractions), Last(row.matches);
    if v.Some? && e.Some? {
      OutcomeIsOneOfTwo(v.value, e.value, m);
    }
  }

  lemma OutcomeIsOneOfTwo(v: Validation, e: Extraction, m: Option<Match>)
    ensures DecisionFor(v, e, m).outcome in {AutoApproved, NeedsReview}
  {
  }

  lemma ExportFits(row: Row, id: nat, key: string)
    ensures Fits(row, ExportInvoice, ExportVerdict(row, id, key))
  {
  }

  /** A stage acts exactly when the invoice waits for it, and enqueues exactly what it then waits for. */
  lemma StageFollowsStatus(
    ratio: Ratio, vendors: seq<Vendor>, orders: seq<PurchaseOrder>, rows: seq<Row>, kind: Kind, id: nat, input: Input)
    requires id < |rows|
    ensures Fits(rows[id], kind, Handle(ratio, vendors, orders, rows, kind, id, input))
  {
    match kind {
      case ExtractInvoice => ExtractionFits(rows[id], input);
      case MatchInvoice => MatchingFits(ratio, vendors, orders, rows[id]);
      case ValidateInvoice => ValidationFits(orders, rows, id);
      case ApproveInvoice => ApprovalFits(rows[id]);
      case ExportInvoice => ExportFits(rows[id], id, input.exportKey);
    }
  }

  lemma HumanFollowsStatus(row: Row, approve: bool, actor: string, reason: Option<Note>)
    ensures var v := HumanVerdict(row, approve, actor, reason);
            && (v.Done? <==> row.status == NeedsReview)
            && (v.Done? ==>
                  v.next == Wakes(v.row.status) && Rank(v.row.status) < Rank(row.status) && !Transient(v.row.status))
  {
    match row.status case _ =>
  }

  // ---- every stage keeps a sound row sound -----------------------------------------------

  lemma VisitedAppend(audit: seq<AuditEntry>, e: AuditEntry)
    ensures Visited(audit + [e]) == Visited(audit) + [e.to]
    ensures Connected(audit) && e.from == Visited(audit)[|audit|] ==> Connected(audit + [e])
  {
    var path := Visited(audit + [e]);
    if Connected(audit) && e.from == Visited(audit)[|audit|] {
      forall i | 0 <= i < |audit| + 1 ensures (audit + [e])[i].from == path[i] {
        assert i < |audit| ==> path[i] == Visited(audit)[i];
      }
    }
  }

  lemma RoadEndsAtStatus(status: Status, human: bool)
    ensures Road(status, human) != [] ==> Road(status, human)[|Road(status, human)| - 1] == status
  {
    match status case _ =>
  }

  /** The log of a row that takes one more legal step. */
  lemma StepOnRoad(row: Row, target: Status, actor: string, reason: Option<Note>, road: seq<Status>)
    requires Connected(row.audit) && Visited(row.audit) == road && road[|road| - 1] == row.status
    requires CanTransition(row.status, target)
    ensures var r := Advanced(row, target, actor, reason).value;
            Connected(r.audit) && Visited(r.audit) == road + [target]
  {
    VisitedAppend(row.audit, AuditEntry(row.status, target, actor, reason));
  }

  lemma ApprovedBySystemOnRoad(row: Row)
    ensures ApprovedBySystem(row) <==> AutoApproved in Visited(row.audit)
  {
    if AutoApproved in Visited(row.audit) {
      var i :| 0 <= i < |Visited(row.audit)| && Visited(row.audit)[i] == AutoApproved;
      assert row.audit[i - 1].to == AutoApproved;
    }
  }

  lemma NewRowIsSound(ratio: Ratio, vendors: seq<Vendor>, orders: seq<PurchaseOrder>, id: nat)
    ensures Sound(ratio, vendors, orders, id, NEW_ROW)
  {
    assert Visited([]) == [Received];
  }

  /** A sound row past extraction has its data. */
  lemma DataIsThere(row: Row)
    requires Complete(row) && row.status !in {Received, Failed}
    ensures LatestSuccessful(row.extractions) == Some(row.extractions[0])
    ensures Data(row) == row.extractions[0].invoice && Data(row).Some?
  {
  }

  lemma ExtractionKeepsSound(ratio: Ratio, vendors: seq<Vendor>, orders: seq<PurchaseOrder>, id: nat, row: Row, input: Input)
    requires Sound(ratio, vendors, orders, id, row) && row.status == Received
    ensures var v := ExtractionVerdict(row, input);
            && (v.Raised? <==> Attempt(input).None?)
            && (v.Done? ==> Sound(ratio, vendors, orders, id, v.row))
  {
    var v := ExtractionVerdict(row, input);
    if v.Done? {
      var started := Advanced(row, Extracting, SYSTEM, Some(StartingExtraction)).value;
      StepOnRoad(row, Extracting, SYSTEM, Some(StartingExtraction), [Received]);
      var e := Attempt(input).value;
      var written := started.(extractions := row.extractions + [e], failureReason := e.error);
      var target, note := if e.ok then Extracted else Failed, if e.ok then Some(ExtractedIn(e.attempts)) else e.error;
      StepOnRoad(written, target, SYSTEM, note, [Received, Extracting]);
      ApprovedBySystemOnRoad(v.row);
      assert [Received, Extracting] + [target] == Road(target, false);
    }
  }

  /** A row that gained its match. */
  lemma MatchedIsSound(
    ratio: Ratio, vendors: seq<Vendor>, orders: seq<PurchaseOrder>, id: nat, row: Row, r: Row, m: Match)
    requires Sound(ratio, vendors, orders, id, row) && row.status == Extracted
    requires r.status == Validating && OnRoad(r) && !ApprovedBySystem(r)
    requires r.extractions == row.extractions && r.matches == row.matches + [m]
    requires r.validations == row.validations && r.exports == row.exports
    requires m == MatchOf(ratio, vendors, orders, row.extractions[0].invoice.value)
    ensures Sound(ratio, vendors, orders, id, r)
  {
    assert vendors[..|vendors|] == vendors && orders[..|orders|] == orders;
    assert MatchJustified(ratio, vendors, orders, row.extractions[0].invoice.value, m);
  }

  lemma MatchedOnRoad(row: Row, written: Row, first: Option<Note>, second: Option<Note>)
    requires OnRoad(row) && row.status == Extracted
    requires Advanced(row, Matching, SYSTEM, first) == Some(written.(matches := row.matches))
    ensures var r := Advanced(written, Validating, SYSTEM, second);
            && r.Some? && OnRoad(r.value) && !ApprovedBySystem(r.value)
  {
    RoadEndsAtStatus(Extracted, false);
    RoadEndsAtStatus(Extracted, true);
    var road := Visited(row.audit);
    StepOnRoad(row, Matching, SYSTEM, first, road);
    StepOnRoad(written, Validating, SYSTEM, second, road + [Matching]);
    MatchingRoads(true);
    MatchingRoads(false);
    ApprovedBySystemOnRoad(Advanced(written, Validating, SYSTEM, second).value);
  }

  lemma MatchingRoads(human: bool)
    ensures Road(Extracted, human) + [Matching] + [Validating] == Road(Validating, false)
    ensures Road(Validating, human) + [Validated] == Road(Validated, false)
    ensures AutoApproved !in Road(Validating, false) && AutoApproved !in Road(Validated, false)
  {
  }

  lemma MatchingKeepsSound(ratio: Ratio, vendors: seq<Vendor>, orders: seq<PurchaseOrder>, id: nat, row: Row)
    requires Sound(ratio, vendors, orders, id, row) && row.status == Extracted
    ensures var v := MatchingVerdict(ratio, vendors, orders, row);
            v.Done? && Sound(ratio, vendors, orders, id, v.row)
  {
    DataIsThere(row);
    var m := MatchOf(ratio, vendors, orders, Data(row).value);
    var note := Some(MatchedBy(m.vendor.how, m.po.how));
    var written := Advanced(row, Matching, SYSTEM, Some(StartingMatching)).value.(matches := row.matches + [m]);
    MatchedOnRoad(row, written, Some(StartingMatching), note);
    MatchedIsSound(ratio, vendors, orders, id, row, Advanced(written, Validating, SYSTEM, note).value, m);
  }

  /** A row that gained its validation. */
  lemma ValidatedIsSound(
    ratio: Ratio, vendors: seq<Vendor>, orders: seq<PurchaseOrder>, id: nat, row: Row, r: Row, v: Validation)
    requires Sound(ratio, vendors, orders, id, row) && row.status == Validating
    requires r.status == Validated && OnRoad(r) && !ApprovedBySystem(r)
    requires r.extractions == row.extractions && r.matches == row.matches
    requires r.validations == row.validations + [v] && r.exports == row.exports
    requires v == Judge(orders, row.extractions[0].invoice.value, Some(row.matches[0]), v.duplicates)
    ensures Sound(ratio, vendors, orders, id, r)
  {
  }

  lemma ValidatedOnRoad(row: Row, written: Row, note: Option<Note>)
    requires OnRoad(row) && row.status == Validating
    requires written.status == Validating && written.audit == row.audit
    ensures var r := Advanced(written, Validated, SYSTEM, note);
            && r.Some? && OnRoad(r.value) && !ApprovedBySystem(r.value)
  {
    RoadEndsAtStatus(Validating, false);
    RoadEndsAtStatus(Validating, true);
    StepOnRoad(written, Validated, SYSTEM, note, Visited(row.audit));
    MatchingRoads(true);
    MatchingRoads(false);
    ApprovedBySystemOnRoad(Advanced(written, Validated, SYSTEM, note).value);
  }

  lemma ValidationKeepsSound(ratio: Ratio, vendors: seq<Vendor>, orders: seq<PurchaseOrder>, rows: seq<Row>, id: nat)
    requires id < |rows| && Sound(ratio, vendors, orders, id, rows[id]) && rows[id].status == Validating
    ensures var v := ValidationVerdict(orders, rows, id);
            v.Done? && Sound(ratio, vendors, orders, id, v.row)
  {
    var row := rows[id];
    DataIsThere(row);
    assert Last(row.matches) == Some(row.matches[0]);
    var m := Last(row.matches);
    var v := Judge(orders, Data(row).value, m, DuplicatesOf(rows, id, Data(row).value, m));
    var note := Some(RulesEvaluated(|v.results|, v.passed));
    var written := row.(validations := row.validations + [v]);
    ValidatedOnRoad(row, written, note);
    ValidatedIsSound(ratio, vendors, orders, id, row, Advanced(written, Validated, SYSTEM, note).value, v);
  }

  lemma ApprovalKeepsSound(ratio: Ratio, vendors: seq<Vendor>, orders: seq<PurchaseOrder>, id: nat, row: Row)
    requires Sound(ratio, vendors, orders, id, row) && row.status == Validated
    ensures var v := ApprovalVerdict(row);
            v.Done? && Sound(ratio, vendors, orders, id, v.row)
  {
    var outcome, note := ApprovalVerdictIs(row);
    DecidedIsSound(ratio, vendors, orders, id, row, outcome, note);
  }

  /** A sound row is decided on its one validation, its one extraction and its one match. */
  lemma ApprovalVerdictIs(row: Row) returns (outcome: Status, note: Option<Note>)
    requires Complete(row) && row.status == Validated
    ensures outcome in {AutoApproved, NeedsReview}
    ensures outcome == DecisionFor(row.validations[0], row.extractions[0], Some(row.matches[0])).outcome
    ensures ApprovalVerdict(row) == Conclude(Advanced(row, outcome, SYSTEM, note),
                                             if outcome == AutoApproved then Some(ExportInvoice) else None)
  {
    DataIsThere(row);
    OutcomeIsOneOfTwo(row.validations[0], row.extractions[0], Some(row.matches[0]));
    assert Last(row.matches) == Some(row.matches[0]) && Last(row.validations) == Some(row.validations[0]);
    var d := DecisionFor(row.validations[0], row.extractions[0], Some(row.matches[0]));
    outcome, note := d.outcome, Some(DecisionReasons(d.reasons));
  }

  /** Only status and log change, between two statuses after validation. */
  lemma SameChildrenStaySound(
    ratio: Ratio, vendors: seq<Vendor>, orders: seq<PurchaseOrder>, id: nat, row: Row, r: Row)
    requires Sound(ratio, vendors, orders, id, row) && PastValidation(row.status) && row.status != Exported
    requires OnRoad(r) && PastValidation(r.status) && r.status != Exported
    requires r.extractions == row.extractions && r.matches == row.matches
    requires r.validations == row.validations && r.exports == row.exports
    requires ApprovedBySystem(r) ==>
               DecisionFor(row.validations[0], row.extractions[0], Some(row.matches[0])).outcome == AutoApproved
    ensures Sound(ratio, vendors, orders, id, r)
  {
  }

  /** The roads after a decision. */
  lemma DecisionRoads(target: Status, human: bool)
    requires target in {AutoApproved, NeedsReview, Approved, Rejected}
    ensures target in {AutoApproved, NeedsReview} ==> Road(Validated, human) + [target] == Road(target, false)
    ensures target in {Approved, Rejected} ==> Road(NeedsReview, human) + [target] == Road(target, false)
    ensures AutoApproved in Road(target, false) <==> target == AutoApproved
  {
  }

  lemma DecidedOnRoad(row: Row, outcome: Status, note: Option<Note>)
    requires OnRoad(row) && row.status == Validated && outcome in {AutoApproved, NeedsReview}
    ensures var r := Advanced(row, outcome, SYSTEM, note);
            && r.Some? && OnRoad(r.value) && (ApprovedBySystem(r.value) ==> outcome == AutoApproved)
  {
    RoadEndsAtStatus(Validated, false);
    RoadEndsAtStatus(Validated, true);
    StepOnRoad(row, outcome, SYSTEM, note, Visited(row.audit));
    DecisionRoads(outcome, true);
    DecisionRoads(outcome, false);
    ApprovedBySystemOnRoad(Advanced(row, outcome, SYSTEM, note).value);
  }

  lemma DecidedIsSound(
    ratio: Ratio, vendors: seq<Vendor>, orders: seq<PurchaseOrder>, id: nat, row: Row, outcome: Status, note: Option<Note>)
    requires Sound(ratio, vendors, orders, id, row) && row.status == Validated
    requires outcome in {AutoApproved, NeedsReview}
    requires outcome == DecisionFor(row.validations[0], row.extractions[0], Some(row.matches[0])).outcome
    ensures Advanced(row, outcome, SYSTEM, note).Some?
    ensures Sound(ratio, vendors, orders, id, Advanced(row, outcome, SYSTEM, note).value)
  {
    DecidedOnRoad(row, outcome, note);
    SameChildrenStaySound(ratio, vendors, orders, id, row, Advanced(row, outcome, SYSTEM, note).value);
  }

  lemma ReviewedOnRoad(row: Row, target: Status, actor: string, reason: Option<Note>)
    requires OnRoad(row) && row.status == NeedsReview && target in {Approved, Rejected}
    ensures var r := Advanced(row, target, actor, reason);
            && r.Some? && OnRoad(r.value) && !ApprovedBySystem(r.value)
  {
    RoadEndsAtStatus(NeedsReview, false);
    RoadEndsAtStatus(NeedsReview, true);
    StepOnRoad(row, target, actor, reason, Visited(row.audit));
    DecisionRoads(target, true);
    DecisionRoads(target, false);
    ApprovedBySystemOnRoad(Advanced(row, target, actor, reason).value);
  }

  lemma HumanKeepsSound(
    ratio: Ratio, vendors: seq<Vendor>, orders: seq<PurchaseOrder>, id: nat, row: Row, approve: bool, actor: string, reason: Option<Note>)
    requires Sound(ratio, vendors, orders, id, row) && row.status == NeedsReview
    ensures var v := HumanVerdict(row, approve, actor, reason);
            v.Done? && Sound(ratio, vendors, orders, id, v.row)
  {
    ReviewedOnRoad(row, if approve then Approved else Rejected, actor, reason);
    SameChildrenStaySound(ratio, vendors, orders, id, row, HumanVerdict(row, approve, actor, reason).row);
  }

  /** The row that an export leaves behind. */
  function ExportedRow(row: Row, artifact: Export): Row {
    row.(status := Exported,
         exports := row.exports + [artifact],
         audit := row.audit + [AuditEntry(row.status, Exporting, SYSTEM, Some(StartingExport)),
                               AuditEntry(Exporting, Exported, SYSTEM, Some(ExportedTo(artifact.storageKey)))])
  }

  /** Both moves of an export, with the new export row between them. */
  lemma ExportedRowIs(row: Row, artifact: Export)
    requires row.status in {AutoApproved, Approved}
    ensures var started := Advanced(row, Exporting, SYSTEM, Some(StartingExport));
            && started.Some?
            && started.value.audit == row.audit + [AuditEntry(row.status, Exporting, SYSTEM, Some(StartingExport))]
            && Advanced(started.value.(exports := row.exports + [artifact]), Exported, SYSTEM,
                        Some(ExportedTo(artifact.storageKey)))
               == Some(ExportedRow(row, artifact))
  {
    assert row.audit + [AuditEntry(row.status, Exporting, SYSTEM, Some(StartingExport))]
           + [AuditEntry(Exporting, Exported, SYSTEM, Some(ExportedTo(artifact.storageKey)))]
           == ExportedRow(row, artifact).audit;
  }

  lemma ExportVerdictIs(row: Row, id: nat, artifact: Export)
    requires OnRoad(row) && Complete(row) && row.status in {AutoApproved, Approved}
    requires row.audit != []
    requires artifact.payload == PayloadOf(id, row.status, row.extractions[0].invoice.value,
                                           Some(row.matches[0]), Some(row.audit[|row.audit| - 1]))
    ensures ExportVerdict(row, id, artifact.storageKey) == Done(ExportedRow(row, artifact), None)
  {
    DataIsThere(row);
    EntryBeforeExport(row);
    assert Last(row.matches) == Some(row.matches[0]);
    ExportedRowIs(row, artifact);
  }

  lemma ExportRoads(status: Status, human: bool)
    requires status in {AutoApproved, Approved}
    ensures Road(status, human) + [Exporting] + [Exported] == Road(Exported, status == Approved)
  {
  }

  lemma TwoMoreHops(audit: seq<AuditEntry>, first: AuditEntry, second: AuditEntry, road: seq<Status>)
    requires Connected(audit) && Visited(audit) == road && road != []
    requires first.from == road[|road| - 1] && second.from == first.to
    ensures Connected(audit + [first] + [second])
    ensures Visited(audit + [first] + [second]) == road + [first.to] + [second.to]
  {
    VisitedAppend(audit, first);
    VisitedAppend(audit + [first], second);
  }

  lemma ExportedOnRoad(row: Row, artifact: Export)
    requires OnRoad(row) && row.status in {AutoApproved, Approved}
    ensures OnRoad(ExportedRow(row, artifact))
    ensures Visited(ExportedRow(row, artifact).audit) == Visited(row.audit) + [Exporting] + [Exported]
  {
    var first := AuditEntry(row.status, Exporting, SYSTEM, Some(StartingExport));
    var second := AuditEntry(Exporting, Exported, SYSTEM, Some(ExportedTo(artifact.storageKey)));
    RoadEndsAtStatus(row.status, false);
    RoadEndsAtStatus(row.status, true);
    TwoMoreHops(row.audit, first, second, Visited(row.audit));
    assert row.audit + [first] + [second] == row.audit + [first, second];
    ExportRoads(row.status, false);
    ExportRoads(row.status, true);
  }

  lemma ExportedLog(row: Row, artifact: Export)
    requires row.audit != [] && row.status in {AutoApproved, Approved}
    ensures var r := ExportedRow(row, artifact);
            && |r.audit| == |row.audit| + 2
            && r.audit[|r.audit| - 3] == row.audit[|row.audit| - 1]
            && (ApprovedBySystem(r) ==> ApprovedBySystem(row))
  {
    var r := ExportedRow(row, artifact);
    assert r.audit[..|row.audit|] == row.audit;
    if ApprovedBySystem(r) {
      var i :| 0 <= i < |r.audit| && r.audit[i].to == AutoApproved;
      assert row.audit[i].to == AutoApproved;
    }
  }

  lemma ExportedIsJustified(
    ratio: Ratio, vendors: seq<Vendor>, orders: seq<PurchaseOrder>, id: nat, row: Row, r: Row, artifact: Export)
    requires Sound(ratio, vendors, orders, id, row) && row.status in {AutoApproved, Approved} && row.audit != []
    requires row.audit[|row.audit| - 1].to == row.status
    requires r.status == Exported && r.extractions == row.extractions && r.matches == row.matches
    requires r.validations == row.validations && r.exports == row.exports + [artifact]
    requires |r.audit| == |row.audit| + 2 && r.audit[|r.audit| - 3] == row.audit[|row.audit| - 1]
    requires ApprovedBySystem(r) ==> ApprovedBySystem(row)
    requires artifact.payload == PayloadOf(id, row.status, row.extractions[0].invoice.value,
                                           Some(row.matches[0]), Some(row.audit[|row.audit| - 1]))
    ensures Complete(r) && Justified(ratio, vendors, orders, id, r)
  {
  }

  lemma ExportKeepsSound(ratio: Ratio, vendors: seq<Vendor>, orders: seq<PurchaseOrder>, id: nat, row: Row, key: string)
    requires Sound(ratio, vendors, orders, id, row) && row.status in {AutoApproved, Approved}
    ensures var v := ExportVerdict(row, id, key);
            v.Done? && Sound(ratio, vendors, orders, id, v.row)
  {
    EntryBeforeExport(row);
    var artifact := Export(key, PayloadOf(id, row.status, row.extractions[0].invoice.value,
                                          Some(row.matches[0]), Some(row.audit[|row.audit| - 1])));
    ExportVerdictIs(row, id, artifact);
    ExportedOnRoad(row, artifact);
    ExportedLog(row, artifact);
    ExportedIsJustified(ratio, vendors, orders, id, row, ExportedRow(row, artifact), artifact);
  }

  /** The backward scan passes over the EXPORTING entry and stops at the approval just before it. */
  lemma EntryBeforeExport(row: Row)
    requires OnRoad(row) && row.status in {AutoApproved, Approved}
    ensures row.audit != [] && row.audit[|row.audit| - 1].to == row.status
    ensures ApprovalEntry(row.audit + [AuditEntry(row.status, Exporting, SYSTEM, Some(StartingExport))])
            == Some(row.audit[|row.audit| - 1])
  {
    var log := row.audit + [AuditEntry(row.status, Exporting, SYSTEM, Some(StartingExport))];
    assert log[..|log| - 1] == row.audit;
    RoadEndsAtStatus(row.status, false);
  }

  /** Every stage of the pipeline commits only sound rows, and none takes a missing-data branch. */
  lemma StageKeepsSound(
    ratio: Ratio, vendors: seq<Vendor>, orders: seq<PurchaseOrder>, rows: seq<Row>, kind: Kind, id: nat, input: Input)
    requires id < |rows| && Sound(ratio, vendors, orders, id, rows[id])
    ensures var v := Handle(ratio, vendors, orders, rows, kind, id, input);
            && (v.Done? ==> Sound(ratio, vendors, orders, id, v.row))
            && (v.Raised? ==> kind == ExtractInvoice && Attempt(input).None?)
  {
    StageFollowsStatus(ratio, vendors, orders, rows, kind, id, input);
    if Wakes(rows[id].status) == Some(kind) {
      match kind {
        case ExtractInvoice => ExtractionKeepsSound(ratio, vendors, orders, id, rows[id], input);
        case MatchInvoice => MatchingKeepsSound(ratio, vendors, orders, id, rows[id]);
        case ValidateInvoice => ValidationKeepsSound(ratio, vendors, orders, rows, id);
        case ApproveInvoice => ApprovalKeepsSound(ratio, vendors, orders, id, rows[id]);
        case ExportInvoice => ExportKeepsSound(ratio, vendors, orders, id, rows[id], input.exportKey);
      }
    }
  }

  /** Adding vendors and orders to the tables leaves sound rows sound. */
  lemma SoundAsTablesGrow(
    ratio: Ratio, vendors: seq<Vendor>, orders: seq<PurchaseOrder>, v: seq<Vendor>, o: seq<PurchaseOrder>, id: nat, row: Row)
    requires Sound(ratio, vendors, orders, id, row)
    ensures Sound(ratio, vendors + v, orders + o, id, row)
  {
    if PastMatching(row.status) {
      var invoice, m := row.extractions[0].invoice.value, row.matches[0];
      var i: nat, j: nat :| i <= |vendors| && j <= |orders| && m == MatchOf(ratio, vendors[..i], orders[..j], invoice);
      assert (vendors + v)[..i] == vendors[..i] && (orders + o)[..j] == orders[..j];
      assert MatchJustified(ratio, vendors + v, orders + o, invoice, m);
      MatchedOrderExists(ratio, vendors[..i], orders[..j], invoice);
    }
  }

  /** A matched purchase order is in the table. */
  lemma MatchedOrderExists(ratio: Ratio, vendors: seq<Vendor>, orders: seq<PurchaseOrder>, invoice: ExtractedInvoice)
    ensures var m := MatchOf(ratio, vendors, orders, invoice);
            m.po.poId.Some? ==> m.po.poId.value < |orders|
  {
    var m := MatchOf(ratio, vendors, orders, invoice);
    if m.po.poId.Some? {
      var code := NormalizeCode(invoice.purchaseOrderNumber);
      var hits := Filter((po: PoIdentity) => HasNumber(code, po), OrderIdentities(orders));
      assert hits[0] in OrderIdentities(orders);
    }
  }
}
