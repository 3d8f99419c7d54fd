/** What holds of rows and of task runs while no task starts on a busy invoice. */
module PipelineInvariants {
  import opened Options
  import opened Lifecycle
  import opened VendorMatching
  import opened Records
  import opened RowInvariants
  import opened Pipeline

  // ---- rows and flights -----------------------------------------------------------

  /** What is asked of the row of an invoice. */
  type RowTest = (int, Row) -> bool

  predicate IsPrefix<T(==)>(a: seq<T>, b: seq<T>) {
    |a| <= |b| && b[..|a|] == a
  }

  /** One row continues another: child rows are only ever appended. */
  predicate Continues(before: Row, after: Row) {
    && IsPrefix(before.extractions, after.extractions)
    && IsPrefix(before.matches, after.matches)
    && IsPrefix(before.validations, after.validations)
    && IsPrefix(before.audit, after.audit)
    && IsPrefix(before.exports, after.exports)
  }

  /** What a task does to its invoice: it answers the status, appends, and moves on. */
  predicate Progress(f: Flight) {
    && Wakes(f.before.status) == Some(f.message.kind)
    && Continues(f.before, f.after)
    && f.next == Wakes(f.after.status)
    && Rank(f.after.status) < Rank(f.before.status)
  }

  /** A task in flight has exclusive use of its invoice, and its result is sound. */
  predicate FlightSound(ok: RowTest, w: World, f: Flight) {
    && f.message.id < |w.rows|
    && w.rows[f.message.id] == f.before
    && ok(f.message.id, f.after)
    && Progress(f)
  }

  predicate RowsSound(ok: RowTest, w: World) {
    forall id :: 0 <= id < |w.rows| ==> ok(id, w.rows[id])
  }

  predicate FlightsSound(ok: RowTest, w: World) {
    && (forall k :: k in w.flights ==> FlightSound(ok, w, w.flights[k]))
    && (forall k :: k in w.flights ==> w.flights[k].message in w.held)
    && (forall j, k :: j in w.flights && k in w.flights && j != k ==>
          w.flights[j].message.id != w.flights[k].message.id)
  }

  predicate Invariant(ok: RowTest, w: World) {
    RowsSound(ok, w) && FlightsSound(ok, w)
  }

  // ---- the test of this pipeline -------------------------------------------------------

  ghost function SoundIn(ratio: Ratio, vendors: seq<Vendor>, orders: seq<PurchaseOrder>): RowTest {
    (id: int, row: Row) => id >= 0 && Sound(ratio, vendors, orders, id, row)
  }

  ghost predicate Inv(ratio: Ratio, w: World) {
    Invariant(SoundIn(ratio, w.vendors, w.orders), w)
  }

  // ---- what a stage does to these -------------------------------------------------------

  lemma ExtractionContinues(row: Row, input: Input)
    requires ExtractionVerdict(row, input).Done?
    ensures Continues(row, ExtractionVerdict(row, input).row)
  {
  }

  lemma MatchingContinues(ratio: Ratio, vendors: seq<Vendor>, orders: seq<PurchaseOrder>, row: Row)
    requires MatchingVerdict(ratio, vendors, orders, row).Done?
    ensures Continues(row, MatchingVerdict(ratio, vendors, orders, row).row)
  {
  }

  lemma ExportContinues(row: Row, id: nat, key: string)
    requires ExportVerdict(row, id, key).Done?
    ensures Continues(row, ExportVerdict(row, id, key).row)
  {
  }

  lemma StageContinues(
    ratio: Ratio, vendors: seq<Vendor>, orders: seq<PurchaseOrder>, rows: seq<Row>, kind: Kind, id: nat, input: Input)
    requires id < |rows| && Handle(ratio, vendors, orders, rows, kind, id, input).Done?
    ensures Continues(rows[id], Handle(ratio, vendors, orders, rows, kind, id, input).row)
  {
    match kind {
      case ExtractInvoice => ExtractionContinues(rows[id], input);
      case MatchInvoice => MatchingContinues(ratio, vendors, orders, rows[id]);
      case ValidateInvoice =>
      case ApproveInvoice =>
      case ExportInvoice => ExportContinues(rows[id], id, input.exportKey);
    }
  }
}
