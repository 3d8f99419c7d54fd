/** Who made each move: the log of every invoice after every run at all, and what exports say of it. */
module Authorship {
  import opened Options
  import opened Lifecycle
  import opened VendorMatching
  import opened Records
  import opened RowInvariants
  import opened Pipeline
  import opened PipelineRuns
  import opened StageMeanings
  import opened Guarantees

  /** Step `i` of the run is the decision that this entry records, taken while the invoice was in review. */
  predicate IsDecision(ratio: Ratio, run: seq<Step>, id: int, e: AuditEntry, i: int) {
    && 0 <= i < |run| && 0 <= id
    && run[i] == Decide(id, e.to == Approved, e.actor, e.reason)
    && id < |Exec(ratio, run[..i]).rows|
    && Exec(ratio, run[..i]).rows[id].status == NeedsReview
  }

  /** A human decision is by the reviewer who took it; everything else is by the system. */
  ghost predicate Authored(ratio: Ratio, run: seq<Step>, id: int, e: AuditEntry) {
    if e.to in {Approved, Rejected} then exists i :: IsDecision(ratio, run, id, e, i) else e.actor == "system"
  }

  /** What a task run adds to the log is by the system, and no human decision. */
  predicate OwnHand(f: Flight) {
    forall i :: |f.before.audit| <= i < |f.after.audit| ==>
      f.after.audit[i].actor == "system" && f.after.audit[i].to !in {Approved, Rejected}
  }

  ghost predicate RowAuthored(ratio: Ratio, run: seq<Step>, id: int, row: Row) {
    forall i :: 0 <= i < |row.audit| ==> Authored(ratio, run, id, row.audit[i])
  }

  ghost predicate AllAuthored(ratio: Ratio, run: seq<Step>, w: World) {
    && (forall id :: 0 <= id < |w.rows| ==> RowAuthored(ratio, run, id, w.rows[id]))
    && (forall k :: k in w.flights ==> OwnHand(w.flights[k]))
  }

  // ---- a longer run has the same authors --------------------------------------------------

  lemma {:induction false} StillRecords(ratio: Ratio, run: seq<Step>, s: Step, id: int, e: AuditEntry)
    requires Authored(ratio, run, id, e)
    ensures Authored(ratio, run + [s], id, e)
  {
    if e.to in {Approved, Rejected} {
      var i :| IsDecision(ratio, run, id, e, i);
      assert (run + [s])[..i] == run[..i];
      assert IsDecision(ratio, run + [s], id, e, i);
    }
  }

  lemma {:induction false} StillAuthored(ratio: Ratio, run: seq<Step>, s: Step, id: int, row: Row)
    requires RowAuthored(ratio, run, id, row)
    ensures RowAuthored(ratio, run + [s], id, row)
  {
    forall i | 0 <= i < |row.audit| ensures Authored(ratio, run + [s], id, row.audit[i]) {
      StillRecords(ratio, run, s, id, row.audit[i]);
    }
  }

  // ---- task runs --------------------------------------------------------------------------------

  lemma {:induction false} OwnEntries(row: Row, r: Row, entries: seq<AuditEntry>, m: Message, next: Option<Kind>)
    requires r.audit == row.audit + entries
    requires forall i :: 0 <= i < |entries| ==> entries[i].actor == "system" && entries[i].to !in {Approved, Rejected}
    ensures OwnHand(Flight(m, row, r, next))
  {
    var n := |row.audit|;
    assert forall i :: n <= i < |r.audit| ==> r.audit[i] == entries[i - n];
  }

  lemma {:induction false} ExtractionOwnHand(row: Row, input: Input, m: Message)
    requires ExtractionVerdict(row, input).Done?
    ensures var v := ExtractionVerdict(row, input); OwnHand(Flight(m, row, v.row, v.next))
  {
    var v := ExtractionVerdict(row, input);
    var n := |row.audit|;
    assert |v.row.audit| == n + 2 && v.row.audit == row.audit + [v.row.audit[n], v.row.audit[n + 1]];
    OwnEntries(row, v.row, [v.row.audit[n], v.row.audit[n + 1]], m, v.next);
  }

  lemma {:induction false} MatchingOwnHand(ratio: Ratio, vendors: seq<Vendor>, orders: seq<PurchaseOrder>, row: Row, m: Message)
    requires MatchingVerdict(ratio, vendors, orders, row).Done?
    ensures var v := MatchingVerdict(ratio, vendors, orders, row); OwnHand(Flight(m, row, v.row, v.next))
  {
    var v := MatchingVerdict(ratio, vendors, orders, row);
    if Data(row).None? {
      OwnEntries(row, v.row, [BySystem(Extracted, Failed, NothingToMatch)], m, v.next);
    } else {
      MatchingWrites(ratio, vendors, orders, row, Data(row).value);
      var found := MatchOf(ratio, vendors, orders, Data(row).value);
      var x, y := BySystem(Extracted, Matching, StartingMatching), BySystem(Matching, Validating, MatchedBy(found.vendor.how, found.po.how));
      assert row.audit + [x] + [y] == row.audit + [x, y];
      OwnEntries(row, v.row, [x, y], m, v.next);
    }
  }

  lemma {:induction false} ValidationOwnHand(orders: seq<PurchaseOrder>, rows: seq<Row>, id: nat, m: Message)
    requires id < |rows| && ValidationVerdict(orders, rows, id).Done?
    ensures var v := ValidationVerdict(orders, rows, id); OwnHand(Flight(m, rows[id], v.row, v.next))
  {
  }

  lemma {:induction false} ApprovalOwnHand(row: Row, m: Message)
    requires ApprovalVerdict(row).Done?
    ensures var v := ApprovalVerdict(row); OwnHand(Flight(m, row, v.row, v.next))
  {
    OutcomeIsOneOfTwo(Last(row.validations).value, LatestSuccessful(row.extractions).value, Last(row.matches));
  }

  lemma {:induction false} ExportOwnHand(row: Row, id: nat, key: string, m: Message)
    requires ExportVerdict(row, id, key).Done?
    ensures var v := ExportVerdict(row, id, key); OwnHand(Flight(m, row, v.row, v.next))
  {
  }

  lemma {:induction false} StageOwnHand(
    ratio: Ratio, vendors: seq<Vendor>, orders: seq<PurchaseOrder>, rows: seq<Row>, m: Message, input: Input)
    requires m.id < |rows| && Handle(ratio, vendors, orders, rows, m.kind, m.id, input).Done?
    ensures var v := Handle(ratio, vendors, orders, rows, m.kind, m.id, input);
            OwnHand(Flight(m, rows[m.id], v.row, v.next))
  {
    match m.kind {
      case ExtractInvoice => ExtractionOwnHand(rows[m.id], input, m);
      case MatchInvoice => MatchingOwnHand(ratio, vendors, orders, rows[m.id], m);
      case ValidateInvoice => ValidationOwnHand(orders, rows, m.id, m);
      case ApproveInvoice => ApprovalFits(rows[m.id]); ApprovalOwnHand(rows[m.id], m);
      case ExportInvoice => ExportOwnHand(rows[m.id], m.id, input.exportKey, m);
    }
  }

  // ---- every step ----------------------------------------------------------------------------------

  lemma {:induction false} StartedAuthored(ratio: Ratio, run: seq<Step>, w: World, k: nat, m: Message, input: Input)
    requires AllAuthored(ratio, run, w) && m in w.queue && k !in w.flights
    ensures AllAuthored(ratio, run, Started(ratio, w, k, m, input))
  {
    var u := Started(ratio, w, k, m, input);
    StartedKeepsRows(ratio, w, k, m, input);
    if m.id < |w.rows| && Handle(ratio, w.vendors, w.orders, w.rows, m.kind, m.id, input).Done? {
      StageOwnHand(ratio, w.vendors, w.orders, w.rows, m, input);
    }
  }

  lemma {:induction false} OverwrittenAuthored(ratio: Ratio, run: seq<Step>, id: int, row: Row, f: Flight)
    requires RowAuthored(ratio, run, id, row) && OwnHand(f)
    ensures RowAuthored(ratio, run, id, Overwritten(row, f.before, f.after))
  {
    var b := Overwritten(row, f.before, f.after);
    var n, k := |row.audit|, |f.before.audit|;
    forall i | 0 <= i < |b.audit| ensures Authored(ratio, run, id, b.audit[i]) {
      if i < n {
        assert b.audit[i] == row.audit[i];
      } else {
        assert b.audit[i] == f.after.audit[k + (i - n)];
      }
    }
  }

  lemma {:induction false} FinishedAuthored(ratio: Ratio, run: seq<Step>, w: World, k: nat)
    requires AllAuthored(ratio, run, w) && k in w.flights
    ensures AllAuthored(ratio, run, Finished(w, k))
  {
    var f := w.flights[k];
    var u := Finished(w, k);
    if f.message.id < |w.rows| {
      OverwrittenAuthored(ratio, run, f.message.id, w.rows[f.message.id], f);
    }
    forall id | 0 <= id < |u.rows| ensures RowAuthored(ratio, run, id, u.rows[id]) {
      assert id != f.message.id ==> u.rows[id] == w.rows[id];
    }
  }

  lemma {:induction false} DeliveredAuthored(ratio: Ratio, run: seq<Step>, w: World, k: nat, m: Message, input: Input, started: World)
    requires AllAuthored(ratio, run, w) && m in w.queue && k !in w.flights && started == Started(ratio, w, k, m, input)
    ensures AllAuthored(ratio, run, Apply(ratio, w, Deliver(k, m, input)))
  {
    StartedAuthored(ratio, run, w, k, m, input);
    DeliverIs(ratio, w, k, m, input, started);
    if k in started.flights {
      FinishedAuthored(ratio, run, started, k);
    }
  }

  lemma {:induction false} DecidedAuthored(
    ratio: Ratio, run: seq<Step>, id: nat, approve: bool, actor: string, reason: Option<Note>)
    requires var w := Exec(ratio, run); id < |w.rows| && RowAuthored(ratio, run, id, w.rows[id])
    ensures var s := Decide(id, approve, actor, reason);
            RowAuthored(ratio, run + [s], id, Decided(Exec(ratio, run), id, approve, actor, reason).rows[id])
  {
    var w, s := Exec(ratio, run), Decide(id, approve, actor, reason);
    var row := w.rows[id];
    StillAuthored(ratio, run, s, id, row);
    HumanVerdictMeans(row, approve, actor, reason);
    if row.status == NeedsReview {
      var r := HumanVerdict(row, approve, actor, reason).row;
      var n := |row.audit|;
      assert (run + [s])[..|run|] == run;
      assert IsDecision(ratio, run + [s], id, r.audit[n], |run|);
      forall i | 0 <= i < |r.audit| ensures Authored(ratio, run + [s], id, r.audit[i]) {
        assert i < n ==> r.audit[i] == row.audit[i];
      }
    }
  }

  lemma {:induction false} StepAuthored(ratio: Ratio, run: seq<Step>, w: World, s: Step)
    requires w == Exec(ratio, run) && AllAuthored(ratio, run, w) && !s.Decide?
    ensures AllAuthored(ratio, run, Apply(ratio, w, s))
  {
    var u := Apply(ratio, w, s);
    if !Enabled(w, s) {
      assert u == w;
    } else if s.Begin? {
      StartedAuthored(ratio, run, w, s.worker, s.message, s.input);
    } else if s.Commit? {
      FinishedAuthored(ratio, run, w, s.worker);
    } else if s.Deliver? {
      DeliveredAuthored(ratio, run, w, s.worker, s.message, s.input, Started(ratio, w, s.worker, s.message, s.input));
    } else {
      QuietStep(ratio, w, s);
      forall id | 0 <= id < |u.rows| ensures RowAuthored(ratio, run, id, u.rows[id]) {
        assert id < |w.rows| ==> u.rows[id] == w.rows[id];
      }
    }
  }

  lemma {:induction false} QuietStep(ratio: Ratio, w: World, s: Step)
    requires Enabled(w, s) && !s.Begin? && !s.Commit? && !s.Deliver? && !s.Decide?
    ensures var u := Apply(ratio, w, s);
            && (u.rows == w.rows || u.rows == w.rows + [NEW_ROW])
            && forall k :: k in u.flights ==> k in w.flights && u.flights[k] == w.flights[k]
  {
  }

  /** After every run at all, each entry of each log is by the reviewer who decided it, or by the system. */
  lemma {:induction false} EveryMoveHasItsAuthor(ratio: Ratio, run: seq<Step>)
    ensures AllAuthored(ratio, run, Exec(ratio, run))
  {
    if run != [] {
      var front, s := run[..|run| - 1], run[|run| - 1];
      EveryMoveHasItsAuthor(ratio, front);
      ExecFront(ratio, run);
      assert front + [s] == run;
      var w := Exec(ratio, front);
      if s.Decide? {
        DecideAuthored(ratio, front, s);
      } else {
        StepAuthored(ratio, front, w, s);
        LongerAuthored(ratio, front, s, Apply(ratio, w, s));
      }
    }
  }

  lemma {:induction false} LongerAuthored(ratio: Ratio, run: seq<Step>, s: Step, u: World)
    requires AllAuthored(ratio, run, u)
    ensures AllAuthored(ratio, run + [s], u)
  {
    forall id | 0 <= id < |u.rows| ensures RowAuthored(ratio, run + [s], id, u.rows[id]) {
      StillAuthored(ratio, run, s, id, u.rows[id]);
    }
  }

  lemma {:induction false} DecideAuthored(ratio: Ratio, run: seq<Step>, s: Step)
    requires s.Decide? && AllAuthored(ratio, run, Exec(ratio, run))
    ensures AllAuthored(ratio, run + [s], Apply(ratio, Exec(ratio, run), s))
  {
    var w := Exec(ratio, run);
    LongerAuthored(ratio, run, s, w);
    if Enabled(w, s) {
      var u := Decided(w, s.id, s.approve, s.actor, s.reason);
      DecidedAuthored(ratio, run, s.id, s.approve, s.actor, s.reason);
      forall id | 0 <= id < |u.rows| ensures RowAuthored(ratio, run + [s], id, u.rows[id]) {
        assert id != s.id ==> u.rows[id] == w.rows[id];
      }
    }
  }

  /**
   An export that a human let through names the reviewer and the reason of a decision
   of the run, taken on that invoice while it was in review; any other names the system.
   */
  lemma {:induction false} ExportNamesItsApprover(ratio: Ratio, run: seq<Step>, id: nat)
    requires Undisturbed(ratio, run) && id < |Exec(ratio, run).rows|
    requires Exec(ratio, run).rows[id].status == Exported
    ensures |Exec(ratio, run).rows[id].exports| == 1
    ensures var p := Exec(ratio, run).rows[id].exports[0].payload;
            && p.status in {AutoApproved, Approved}
            && (p.status == AutoApproved ==> p.approvedBy == Some("system"))
            && (p.status == Approved ==>
                  && p.approvedBy.Some?
                  && exists i :: 0 <= i < |run|
                       && run[i] == Decide(id, true, p.approvedBy.value, p.approvedReason)
                       && id < |Exec(ratio, run[..i]).rows| && Exec(ratio, run[..i]).rows[id].status == NeedsReview)
  {
    var row := Exec(ratio, run).rows[id];
    var k := ExportProvenance(ratio, run, id);
    EveryMoveHasItsAuthor(ratio, run);
    var e := row.audit[k];
    assert RowAuthored(ratio, run, id, row);
    assert Authored(ratio, run, id, e);
    if e.to == Approved {
      var i :| IsDecision(ratio, run, id, e, i);
    }
  }
}
