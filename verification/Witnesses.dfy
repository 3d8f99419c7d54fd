/**
 Runs that show where the guarantees end: two bills without a number, an export
 that a human let through without a vendor, duplicates approved after a task has
 overtaken another, and two reviewers who decide at the same time.
 */
module Witnesses {
  import opened Options
  import opened Lifecycle
  import opened Text
  import opened Rules
  import opened ApprovalPolicy
  import opened ExtractionRetry
  import opened VendorMatching
  import opened Records
  import opened RowInvariants
  import opened Pipeline
  import opened PipelineInvariants
  import opened PipelineFrames
  import opened PipelineRuns
  import opened StageMeanings
  import opened Exclusion
  import opened Guarantees

  // ---- counting what goes wrong ------------------------------------------------------

  /** Starts on busy and on overtaken invoices, redeliveries, and redeliveries of what is not in the queue. */
  datatype Tally = Tally(busy: nat, overtaken: nat, redelivered: nat, invented: nat)

  const SPOTLESS := Tally(0, 0, 0, 0)

  function Plus(t: Tally, w: World, s: Step): Tally {
    Tally(t.busy + (if BusyStart(w, s) then 1 else 0),
          t.overtaken + (if OvertakenStart(w, s) then 1 else 0),
          t.redelivered + (if s.Redeliver? then 1 else 0),
          t.invented + (if s.Redeliver? && s.message !in w.queue then 1 else 0))
  }

  function Count(ratio: Ratio, run: seq<Step>): Tally
    decreases |run|, 1
  {
    if run == [] then SPOTLESS else CountLast(ratio, run)
  }

  function CountLast(ratio: Ratio, run: seq<Step>): Tally
    requires run != []
    decreases |run|, 0
  {
    Plus(Count(ratio, run[..|run| - 1]), Exec(ratio, run[..|run| - 1]), run[|run| - 1])
  }

  lemma CountOneMore(ratio: Ratio, front: seq<Step>, s: Step)
    ensures Count(ratio, front + [s]) == Plus(Count(ratio, front), Exec(ratio, front), s)
  {
    var run := front + [s];
    assert run[..|run| - 1] == front;
    assert CountLast(ratio, run) == Plus(Count(ratio, front), Exec(ratio, front), s);
  }

  lemma {:induction false} CountMeans(ratio: Ratio, run: seq<Step>)
    ensures Count(ratio, run).busy == BusyStarts(ratio, run)
    ensures Count(ratio, run).overtaken == OvertakenStarts(ratio, run)
  {
    if run != [] {
      var n := |run| - 1;
      LastStart(ratio, run);
      CountMeans(ratio, run[..n]);
      CountOneMore(ratio, run[..n], run[n]);
      assert run[..n] + [run[n]] == run;
    }
  }

  /** In a smooth run nothing starts on a busy invoice. */
  lemma SmoothIsUndisturbed(ratio: Ratio, run: seq<Step>)
    requires Smooth(run)
    ensures Undisturbed(ratio, run) && NeverOvertaken(ratio, run)
  {
    assert Permitted(AtomicTasks, run);
    PermittedIsUndisturbed(ratio, AtomicTasks, run);
    FewerOvertakenStarts(ratio, run);
  }

  // ---- running on -----------------------------------------------------------------

  /** A step of a smooth run other than a delivery. */
  predicate Mild(s: Step) {
    s.Arrive? || s.Send? || s.Decide? || s.AddVendor? || s.AddOrder?
  }

  lemma MildCounts(t: Tally, w: World, s: Step)
    requires Mild(s) || s.Commit?
    ensures Plus(t, w, s) == t
  {
  }

  lemma SmoothOnwards(run: seq<Step>, s: Step)
    requires Smooth(run) && (Mild(s) || s.Deliver?)
    ensures Smooth(run + [s])
  {
  }

  lemma Then(ratio: Ratio, run: seq<Step>, s: Step) returns (longer: seq<Step>)
    ensures longer == run + [s]
    ensures Exec(ratio, longer) == Apply(ratio, Exec(ratio, run), s)
    ensures Smooth(run) && (Mild(s) || s.Deliver?) ==> Smooth(longer)
    ensures Mild(s) || s.Commit? ==> Count(ratio, longer) == Count(ratio, run)
  {
    longer := run + [s];
    ExecLast(ratio, run, s);
    if Mild(s) || s.Commit? {
      CountOneMore(ratio, run, s);
      MildCounts(Count(ratio, run), Exec(ratio, run), s);
    }
    if Smooth(run) && (Mild(s) || s.Deliver?) {
      SmoothOnwards(run, s);
    }
  }

  const WORKER := 9

  function Overtaking(t: Tally): Tally {
    Tally(t.busy + 1, t.overtaken + 1, t.redelivered, t.invented)
  }

  lemma IdleDeliveryCounts(t: Tally, w: World, s: Step)
    requires s.Deliver? && Idle(w, s.message.id)
    ensures Plus(t, w, s) == t
  {
  }

  lemma OvertakingDeliveryCounts(t: Tally, w: World, s: Step)
    requires s.Deliver? && Enabled(w, s) && Overtaken(w, s.message.id)
    ensures Plus(t, w, s) == Overtaking(t)
  {
  }

  /** Send a message and let one worker process it in one go. */
  lemma SendAndDeliver(ratio: Ratio, run: seq<Step>, w: World, m: Message, input: Input, row: Row, next: Option<Kind>)
    returns (sent: seq<Step>, longer: seq<Step>)
    requires Exec(ratio, run) == w
    requires m in w.outbox && WORKER !in w.flights && m.id < |w.rows|
    requires Handle(ratio, w.vendors, w.orders, w.rows, m.kind, m.id, input) == Done(row, next)
    ensures Exec(ratio, sent) == w.(outbox := w.outbox - multiset{m}, queue := w.queue + multiset{m})
    ensures Count(ratio, sent) == Count(ratio, run) && longer == sent + [Deliver(WORKER, m, input)]
    ensures Exec(ratio, longer)
         == w.(rows := w.rows[m.id := row], outbox := w.outbox - multiset{m} + Enqueued(next, m.id))
    ensures Smooth(run) ==> Smooth(longer)
  {
    sent := Then(ratio, run, Send(m));
    var v := w.(outbox := w.outbox - multiset{m}, queue := w.queue + multiset{m});
    assert Exec(ratio, sent) == v;
    DeliverCommits(ratio, v, WORKER, m, input);
    longer := Then(ratio, sent, Deliver(WORKER, m, input));
    assert w.queue + multiset{m} - multiset{m} == w.queue;
  }

  /** On an idle invoice this counts for nothing. */
  lemma Process(ratio: Ratio, run: seq<Step>, w: World, m: Message, input: Input, row: Row, next: Option<Kind>)
    returns (longer: seq<Step>)
    requires Exec(ratio, run) == w && Idle(w, m.id)
    requires m in w.outbox && WORKER !in w.flights && m.id < |w.rows|
    requires Handle(ratio, w.vendors, w.orders, w.rows, m.kind, m.id, input) == Done(row, next)
    ensures Exec(ratio, longer)
         == w.(rows := w.rows[m.id := row], outbox := w.outbox - multiset{m} + Enqueued(next, m.id))
    ensures Smooth(run) ==> Smooth(longer)
    ensures Count(ratio, longer) == Count(ratio, run)
  {
    var sent;
    sent, longer := SendAndDeliver(ratio, run, w, m, input, row, next);
    var s := Deliver(WORKER, m, input);
    CountOneMore(ratio, sent, s);
    IdleDeliveryCounts(Count(ratio, run), Exec(ratio, sent), s);
  }

  lemma ProcessOvertaking(ratio: Ratio, run: seq<Step>, w: World, m: Message, input: Input, row: Row, next: Option<Kind>)
    returns (longer: seq<Step>)
    requires Exec(ratio, run) == w && Overtaken(w, m.id)
    requires m in w.outbox && WORKER !in w.flights && m.id < |w.rows|
    requires Handle(ratio, w.vendors, w.orders, w.rows, m.kind, m.id, input) == Done(row, next)
    ensures Exec(ratio, longer)
         == w.(rows := w.rows[m.id := row], outbox := w.outbox - multiset{m} + Enqueued(next, m.id))
    ensures Count(ratio, longer) == Overtaking(Count(ratio, run))
  {
    var sent;
    sent, longer := SendAndDeliver(ratio, run, w, m, input, row, next);
    var s, v := Deliver(WORKER, m, input), Exec(ratio, sent);
    var k :| k in w.flights && w.flights[k].message.id == m.id && w.flights[k].before != w.rows[m.id];
    assert k in v.flights && v.flights[k] == w.flights[k];
    CountOneMore(ratio, sent, s);
    OvertakingDeliveryCounts(Count(ratio, run), v, s);
  }

  // ---- one vendor, one order, and bills that differ in nothing ------------------------

  const SHOP := Vendor("Shop", Some("1"), [], true)
  const ORDER := PurchaseOrder("7", "USD", 100.0, 0)

  const CERTAIN: map<string, real> :=
    map["currency" := 1.0, "invoice_date" := 1.0, "invoice_number" := 1.0, "supplier_name" := 1.0, "total" := 1.0]

  function Bill(number: string): ExtractedInvoice {
    ExtractedInvoice(Some("Shop"), Some("1"), Some(number), Some("2024-01-01"), Some("USD"), Some("7"),
                     [], None, None, Some(100.0))
  }

  function Document(number: string): Input {
    Input("bill", None, [Valid("{}", ExtractionResult(Bill(number), CERTAIN))], 0, "exports/bill")
  }

  const FOUND := Match(VendorMatchResult(Some(0), ByTaxId, 1.0, []), PoMatchResult(Some(0), ExactNumber))
  const UNKNOWN := Match(VendorMatchResult(None, NoVendor, 0.0, []), PoMatchResult(None, NotFound))

  function Hop(from: Status, to: Status, note: Note): AuditEntry {
    AuditEntry(from, to, SYSTEM, Some(note))
  }

  function Read(number: string): Row {
    Row(Extracted, None, [Extraction(true, 1, Some(Bill(number)), Some(CERTAIN), None, Some("{}"))], [], [],
        [Hop(Received, Extracting, StartingExtraction), Hop(Extracting, Extracted, ExtractedIn(1))], [])
  }

  function Matched(number: string, m: Match): Row {
    var row := Read(number);
    row.(status := Validating, matches := [m],
         audit := row.audit + [Hop(Extracted, Matching, StartingMatching)]
                  + [Hop(Matching, Validating, MatchedBy(m.vendor.how, m.po.how))])
  }

  function Checked(number: string, m: Match, v: Validation): Row {
    var row := Matched(number, m);
    row.(status := Validated, validations := [v],
         audit := row.audit + [Hop(Validating, Validated, RulesEvaluated(7, v.passed))])
  }

  lemma BillIsRead(number: string)
    ensures ExtractionVerdict(NEW_ROW, Document(number)) == Done(Read(number), Some(MatchInvoice))
  {
    var input := Document(number);
    assert Strip("bill") == "bill";
    assert ReplyAt(input.replies, 0) == input.replies[0];
    assert RejectedPrefix(input.replies, 1) == 0;
  }

  lemma CodesOfBill()
    ensures NormalizeCode(Some("1")) == "1" && NormalizeCode(Some("7")) == "7"
  {
  }

  lemma BillIsMatched(ratio: Ratio, number: string)
    ensures MatchingVerdict(ratio, [SHOP], [ORDER], Read(number)) == Done(Matched(number, FOUND), Some(ValidateInvoice))
  {
    CodesOfBill();
    var shop := VendorIdentity(0, SHOP.legalName, SHOP.taxId, SHOP.aliases);
    assert Identities([SHOP]) == [shop] by {
      assert [SHOP][..0] == [];
    }
    assert TaxHits(Some("1"), [shop]) == [shop] by {
      assert HasTaxId("1", shop);
    }
    var order := PoIdentity(0, ORDER.poNumber);
    assert OrderIdentities([ORDER]) == [order];
    assert PoMatch(Some("7"), [order]) == PoMatchResult(Some(0), ExactNumber) by {
      assert HasNumber("7", order);
    }
    assert MatchOf(ratio, [SHOP], [ORDER], Bill(number)) == FOUND;
  }

  /** A clean bill passes exactly when no duplicate was found, or it has no number. */
  lemma BillPasses(orders: seq<PurchaseOrder>, number: string, m: Match, duplicates: seq<nat>)
    requires (orders == [ORDER] && m == FOUND) || m == UNKNOWN
    ensures Judge(orders, Bill(number), Some(m), duplicates).passed <==> number == "" || duplicates == []
    ensures |Judge(orders, Bill(number), Some(m), duplicates).results| == 7
  {
    var inp := ValidationInput(Bill(number), OrderSnapshot(orders, Some(m)), MatchedVendor(Some(m)), duplicates);
    CleanExactlyWhen(inp);
    assert AddsUp(inp.invoice);
    if m == FOUND {
      var po := inp.matchedPo.value;
      assert NearOrder(inp.invoice, po) by {
        NearOrderOnCents(inp.invoice, po, 10_000, 10_000);
      }
      CanonicalCurrencyDecides("USD", "USD");
      assert SameCurrency(inp.invoice, po);
    }
  }

  function Judged(orders: seq<PurchaseOrder>, number: string, m: Match, duplicates: seq<nat>): Row {
    Checked(number, m, Judge(orders, Bill(number), Some(m), duplicates))
  }

  /** A bill after validation, cleared or not. */
  predicate ToDecide(row: Row, number: string, m: Match, passed: bool) {
    && row.status == Validated
    && row.extractions == Read(number).extractions && row.matches == [m] && row.exports == []
    && row.validations != [] && row.validations[|row.validations| - 1].passed == passed
  }

  lemma BillIsChecked(orders: seq<PurchaseOrder>, rows: seq<Row>, id: nat, number: string, m: Match)
    returns (judged: Row)
    requires (orders == [ORDER] && m == FOUND) || m == UNKNOWN
    requires id < |rows| && rows[id] == Matched(number, m)
    ensures ValidationVerdict(orders, rows, id) == Done(judged, Some(ApproveInvoice))
    ensures ToDecide(judged, number, m, number == "" || DuplicatesOf(rows, id, Bill(number), Some(m)) == [])
    ensures Continues(rows[id], judged) && |judged.validations| == 1
  {
    var duplicates := DuplicatesOf(rows, id, Bill(number), Some(m));
    judged := Judged(orders, number, m, duplicates);
    BillPasses(orders, number, m, duplicates);
  }

  function Concluded(row: Row, outcome: Status, reasons: seq<Reason>): Row {
    row.(status := outcome, audit := row.audit + [Hop(Validated, outcome, DecisionReasons(reasons))])
  }

  lemma CertainIsConfident()
    ensures forall f :: f in CRITICAL_FIELDS ==> Confident(CERTAIN, f)
  {
  }

  lemma DecisionOnBill(v: Validation, e: Extraction, m: Match)
    requires m in {FOUND, UNKNOWN} && e.confidence == Some(CERTAIN)
    ensures DecisionFor(v, e, Some(m)).outcome == if v.passed && m == FOUND then AutoApproved else NeedsReview
  {
    CertainIsConfident();
    DecisionOutcome(v.passed, VendorIdentified(Some(m)), HasPo(Some(m)), ConfidenceOf(e));
  }

  lemma ApprovalWrites(row: Row, v: Validation, e: Extraction, m: Match, outcome: Status)
    requires row.status == Validated && Last(row.validations) == Some(v)
    requires LatestSuccessful(row.extractions) == Some(e) && row.matches == [m]
    requires DecisionFor(v, e, Some(m)).outcome == outcome && outcome in {AutoApproved, NeedsReview}
    ensures ApprovalVerdict(row)
         == Done(Concluded(row, outcome, DecisionFor(v, e, Some(m)).reasons),
                 if outcome == AutoApproved then Some(ExportInvoice) else None)
  {
  }

  /** A checked bill is approved exactly when its last validation passed and vendor and order were found. */
  lemma BillIsDecided(row: Row, number: string, m: Match, passed: bool) returns (reasons: seq<Reason>)
    requires ToDecide(row, number, m, passed) && m in {FOUND, UNKNOWN}
    ensures ApprovalVerdict(row)
         == Done(Concluded(row, if passed && m == FOUND then AutoApproved else NeedsReview, reasons),
                 if passed && m == FOUND then Some(ExportInvoice) else None)
  {
    var v, e := row.validations[|row.validations| - 1], row.extractions[0];
    DecisionOnBill(v, e, m);
    ApprovalWrites(row, v, e, m, DecisionFor(v, e, Some(m)).outcome);
    reasons := DecisionFor(v, e, Some(m)).reasons;
  }

  // ---- pieces of runs ---------------------------------------------------------------------

  /** What a state looks like while invoice `id` is worked on by an undisturbed worker. */
  predicate Ready(w: World, id: nat, row: Row, kind: Kind) {
    id < |w.rows| && w.rows[id] == row && Message(kind, id) in w.outbox && WORKER !in w.flights && Idle(w, id)
  }

  function Stage(w: World, id: nat, kind: Kind, row: Row, next: Option<Kind>): World
    requires id < |w.rows|
  {
    w.(rows := w.rows[id := row], outbox := w.outbox - multiset{Message(kind, id)} + Enqueued(next, id))
  }

  lemma Replaced(o: multiset<Message>, x: multiset<Message>, y: multiset<Message>)
    ensures o + x - x + y == o + y
  {
  }

  lemma TwoStages(w: World, id: nat, first: Kind, between: Row, second: Kind, row: Row, next: Option<Kind>)
    requires id < |w.rows|
    ensures Stage(Stage(w, id, first, between, Some(second)), id, second, row, next) == Stage(w, id, first, row, next)
  {
    Replaced(w.outbox - multiset{Message(first, id)}, multiset{Message(second, id)}, Enqueued(next, id));
    assert w.rows[id := between][id := row] == w.rows[id := row];
  }

  lemma ToMatched(ratio: Ratio, run: seq<Step>, w: World, id: nat, number: string) returns (longer: seq<Step>)
    requires Exec(ratio, run) == w && w.vendors == [SHOP] && w.orders == [ORDER]
    requires Ready(w, id, NEW_ROW, ExtractInvoice)
    ensures Exec(ratio, longer) == Stage(w, id, ExtractInvoice, Matched(number, FOUND), Some(ValidateInvoice))
    ensures Smooth(run) ==> Smooth(longer)
    ensures Count(ratio, longer) == Count(ratio, run)
  {
    BillIsRead(number);
    longer := Process(ratio, run, w, Message(ExtractInvoice, id), Document(number), Read(number), Some(MatchInvoice));
    var read := Stage(w, id, ExtractInvoice, Read(number), Some(MatchInvoice));
    BillIsMatched(ratio, number);
    longer := Process(ratio, longer, read, Message(MatchInvoice, id), Document(number), Matched(number, FOUND), Some(ValidateInvoice));
    TwoStages(w, id, ExtractInvoice, Read(number), MatchInvoice, Matched(number, FOUND), Some(ValidateInvoice));
  }

  /** The system's approval of a bill, recorded in its log. */
  predicate Paid(row: Row, number: string) {
    ApprovedBySystem(row) && Data(row) == Some(Bill(number)) && row.matches == [FOUND]
  }

  lemma BillIsApproved(number: string, row: Row) returns (paid: Row)
    requires ToDecide(row, number, FOUND, true)
    ensures ApprovalVerdict(row) == Done(paid, Some(ExportInvoice))
    ensures Paid(paid, number)
  {
    var reasons := BillIsDecided(row, number, FOUND, true);
    paid := Concluded(row, AutoApproved, reasons);
    assert paid.audit[|paid.audit| - 1].to == AutoApproved;
  }

  lemma ToChecked(ratio: Ratio, run: seq<Step>, w: World, id: nat, row: Row, judged: Row) returns (longer: seq<Step>)
    requires Exec(ratio, run) == w && Ready(w, id, row, ValidateInvoice)
    requires ValidationVerdict(w.orders, w.rows, id) == Done(judged, Some(ApproveInvoice))
    ensures Exec(ratio, longer) == Stage(w, id, ValidateInvoice, judged, Some(ApproveInvoice))
    ensures Smooth(run) ==> Smooth(longer)
    ensures Count(ratio, longer) == Count(ratio, run)
  {
    longer := Process(ratio, run, w, Message(ValidateInvoice, id), Document(""), judged, Some(ApproveInvoice));
  }

  /** From validation to an approval, when nothing competes. */
  lemma ToApproved(ratio: Ratio, run: seq<Step>, w: World, id: nat, number: string)
    returns (longer: seq<Step>, row: Row)
    requires Exec(ratio, run) == w && w.orders == [ORDER]
    requires Ready(w, id, Matched(number, FOUND), ValidateInvoice)
    requires number == "" || DuplicatesOf(w.rows, id, Bill(number), Some(FOUND)) == []
    ensures Exec(ratio, longer) == Stage(w, id, ValidateInvoice, row, Some(ExportInvoice))
    ensures Paid(row, number)
    ensures Smooth(run) ==> Smooth(longer)
    ensures Count(ratio, longer) == Count(ratio, run)
  {
    var judged := BillIsChecked([ORDER], w.rows, id, number, FOUND);
    longer := ToChecked(ratio, run, w, id, Matched(number, FOUND), judged);
    row := BillIsApproved(number, judged);
    longer := ToDecided(ratio, longer, Stage(w, id, ValidateInvoice, judged, Some(ApproveInvoice)), id, judged, row);
    TwoStages(w, id, ValidateInvoice, judged, ApproveInvoice, row, Some(ExportInvoice));
  }

  lemma ToDecided(ratio: Ratio, run: seq<Step>, w: World, id: nat, judged: Row, row: Row) returns (longer: seq<Step>)
    requires Exec(ratio, run) == w && Ready(w, id, judged, ApproveInvoice)
    requires ApprovalVerdict(judged) == Done(row, Some(ExportInvoice))
    ensures Exec(ratio, longer) == Stage(w, id, ApproveInvoice, row, Some(ExportInvoice))
    ensures Smooth(run) ==> Smooth(longer)
    ensures Count(ratio, longer) == Count(ratio, run)
  {
    longer := Process(ratio, run, w, Message(ApproveInvoice, id), Document(""), row, Some(ExportInvoice));
  }

  /** A system with one vendor and one order, in which nothing is under way. */
  function Waiting(rows: seq<Row>, outbox: multiset<Message>): World {
    World(rows, [SHOP], [ORDER], outbox, multiset{}, multiset{}, multiset{}, map[])
  }

  lemma Opened(ratio: Ratio) returns (run: seq<Step>)
    ensures Exec(ratio, run) == Waiting([], multiset{})
    ensures Smooth(run) && Count(ratio, run) == SPOTLESS
  {
    run := Then(ratio, [], AddVendor(SHOP));
    run := Then(ratio, run, AddOrder(ORDER));
  }

  lemma Arrives(ratio: Ratio, run: seq<Step>, rows: seq<Row>, outbox: multiset<Message>) returns (longer: seq<Step>)
    requires Exec(ratio, run) == Waiting(rows, outbox)
    ensures Exec(ratio, longer) == Waiting(rows + [NEW_ROW], outbox + multiset{Message(ExtractInvoice, |rows|)})
    ensures Smooth(run) ==> Smooth(longer)
    ensures Count(ratio, longer) == Count(ratio, run)
  {
    longer := Then(ratio, run, Arrive);
  }

  lemma TwoArrivals(ratio: Ratio) returns (run: seq<Step>)
    ensures Exec(ratio, run)
         == Waiting([NEW_ROW, NEW_ROW], multiset{Message(ExtractInvoice, 0), Message(ExtractInvoice, 1)})
    ensures Smooth(run) && Count(ratio, run) == SPOTLESS
  {
    run := Opened(ratio);
    run := Arrives(ratio, run, [], multiset{});
    run := Arrives(ratio, run, [NEW_ROW], multiset{Message(ExtractInvoice, 0)});
    assert multiset{Message(ExtractInvoice, 0)} + multiset{Message(ExtractInvoice, 1)}
        == multiset{Message(ExtractInvoice, 0), Message(ExtractInvoice, 1)};
  }

  // ---- bills without a number -----------------------------------------------------------------

  lemma NothingCompetes(rows: seq<Row>, id: nat, n: string)
    requires id < |rows| == 2
    requires forall j :: 0 <= j < 2 && j != id ==>
               rows[j].status == Rejected || rows[j].matches == [] || Data(rows[j]) == Some(Bill(""))
    ensures DuplicatesOf(rows, id, Bill(n), Some(FOUND)) == []
  {
    var d := DuplicatesOf(rows, id, Bill(n), Some(FOUND));
    assert d == [] || d[0] in d;
    assert forall j :: j !in d;
  }

  /** One bill, from its arrival to the system's approval, when nothing competes. */
  lemma PayBill(ratio: Ratio, run: seq<Step>, w: World, id: nat, n: string) returns (longer: seq<Step>, row: Row)
    requires Exec(ratio, run) == w && w.vendors == [SHOP] && w.orders == [ORDER]
    requires Ready(w, id, NEW_ROW, ExtractInvoice)
    requires n == "" || DuplicatesOf(w.rows[id := Matched(n, FOUND)], id, Bill(n), Some(FOUND)) == []
    ensures Exec(ratio, longer) == Stage(w, id, ExtractInvoice, row, Some(ExportInvoice))
    ensures Paid(row, n)
    ensures Smooth(run) ==> Smooth(longer)
  {
    longer := ToMatched(ratio, run, w, id, n);
    var matched := Matched(n, FOUND);
    longer, row := ToApproved(ratio, longer, Stage(w, id, ExtractInvoice, matched, Some(ValidateInvoice)), id, n);
    TwoStages(w, id, ExtractInvoice, matched, ValidateInvoice, row, Some(ExportInvoice));
  }

  /** The system has approved two invoices with these numbers for one matched vendor. */
  ghost predicate BothApproved(ratio: Ratio, run: seq<Step>, n: string, m: string, a: nat, b: nat) {
    var rows := Exec(ratio, run).rows;
    && a < |rows| && b < |rows| && a != b
    && ApprovedWith(rows[a], n) && ApprovedWith(rows[b], m)
    && exists vendorId: nat :: VendorIs(rows[a], vendorId) && VendorIs(rows[b], vendorId)
  }

  ghost predicate ApprovedWith(row: Row, number: string) {
    && ApprovedBySystem(row)
    && exists invoice :: Holds(row, invoice) && invoice.invoiceNumber == Some(number)
  }

  lemma BothPaid(ratio: Ratio, run: seq<Step>, n: string, m: string, first: Row, second: Row)
    requires Exec(ratio, run).rows == [first, second] && Paid(first, n) && Paid(second, m)
    ensures BothApproved(ratio, run, n, m, 0, 1)
  {
    DataMeans(first, Bill(n));
    DataMeans(second, Bill(m));
    assert VendorIs(first, 0) && VendorIs(second, 0);
  }

  lemma PayFirst(ratio: Ratio, n: string) returns (run: seq<Step>, first: Row)
    ensures Smooth(run) && Paid(first, n)
    ensures Exec(ratio, run)
         == Waiting([first, NEW_ROW], multiset{Message(ExtractInvoice, 1), Message(ExportInvoice, 0)})
  {
    run := TwoArrivals(ratio);
    NothingCompetes([Matched(n, FOUND), NEW_ROW], 0, n);
    assert [NEW_ROW, NEW_ROW][0 := Matched(n, FOUND)] == [Matched(n, FOUND), NEW_ROW];
    run, first := PayBill(ratio, run, Exec(ratio, run), 0, n);
    assert [NEW_ROW, NEW_ROW][0 := first] == [first, NEW_ROW];
  }

  lemma PayAfter(ratio: Ratio, run: seq<Step>, n: string, m: string, first: Row) returns (longer: seq<Step>, second: Row)
    requires Smooth(run) && Paid(first, n) && (n == "" || m == "")
    requires Exec(ratio, run)
          == Waiting([first, NEW_ROW], multiset{Message(ExtractInvoice, 1), Message(ExportInvoice, 0)})
    ensures Smooth(longer) && Paid(second, m) && Exec(ratio, longer).rows == [first, second]
  {
    if m != "" {
      NothingCompetes([first, Matched(m, FOUND)], 1, m);
    }
    assert [first, NEW_ROW][1 := Matched(m, FOUND)] == [first, Matched(m, FOUND)];
    longer, second := PayBill(ratio, run, Exec(ratio, run), 1, m);
    assert [first, NEW_ROW][1 := second] == [first, second];
  }

  /** If one of two bills has no number, a smooth run approves both. */
  lemma UnnumberedAreBothPaid(ratio: Ratio, n: string, m: string) returns (run: seq<Step>)
    requires n == "" || m == ""
    ensures Smooth(run) && BothApproved(ratio, run, n, m, 0, 1)
  {
    var first, second;
    run, first := PayFirst(ratio, n);
    run, second := PayAfter(ratio, run, n, m, first);
    BothPaid(ratio, run, n, m, first, second);
  }

  // ---- exports that a human let through ---------------------------------------------------------

  /** With no vendors and no orders in the tables, nothing is found. */
  lemma BillIsUnknown(ratio: Ratio, number: string)
    ensures MatchingVerdict(ratio, [], [], Read(number)) == Done(Matched(number, UNKNOWN), Some(ValidateInvoice))
  {
    CodesOfBill();
    assert OrderIdentities([]) == [];
    assert PoMatch(Some("7"), []) == PoMatchResult(None, NotFound);
    assert Identities([]) == [];
    assert VendorMatch(ratio, Some("1"), Some("Shop"), []) == UNKNOWN.vendor;
    assert MatchOf(ratio, [], [], Bill(number)) == UNKNOWN;
  }

  lemma BillIsExported(row: Row, id: nat, key: string) returns (out: Row)
    requires row.status == Approved && Data(row).Some? && row.matches == [UNKNOWN] && row.exports == []
    ensures ExportVerdict(row, id, key) == Done(out, None)
    ensures out.status == Exported && |out.exports| == 1
    ensures out.exports[0].payload.vendorId.None? && out.exports[0].payload.poId.None?
  {
    out := ExportVerdict(row, id, key).row;
  }

  /** One invoice in a system without vendors or orders, waiting for one task or for none. */
  function OnlyInvoice(row: Row, next: Option<Kind>): World {
    World([row], [], [], Enqueued(next, 0), multiset{}, multiset{}, multiset{}, map[])
  }

  lemma OnlyInvoiceAdvances(ratio: Ratio, run: seq<Step>, before: Row, kind: Kind, input: Input, after: Row, next: Option<Kind>)
    returns (longer: seq<Step>)
    requires Exec(ratio, run) == OnlyInvoice(before, Some(kind)) && Smooth(run)
    requires Handle(ratio, [], [], [before], kind, 0, input) == Done(after, next)
    ensures Exec(ratio, longer) == OnlyInvoice(after, next) && Smooth(longer)
  {
    longer := Process(ratio, run, OnlyInvoice(before, Some(kind)), Message(kind, 0), input, after, next);
    assert [before][0 := after] == [after];
  }

  lemma ToUnknown(ratio: Ratio, n: string) returns (run: seq<Step>)
    ensures Exec(ratio, run) == OnlyInvoice(Matched(n, UNKNOWN), Some(ValidateInvoice)) && Smooth(run)
  {
    run := Then(ratio, [], Arrive);
    assert Exec(ratio, run) == OnlyInvoice(NEW_ROW, Some(ExtractInvoice));
    BillIsRead(n);
    run := OnlyInvoiceAdvances(ratio, run, NEW_ROW, ExtractInvoice, Document(n), Read(n), Some(MatchInvoice));
    BillIsUnknown(ratio, n);
    run := OnlyInvoiceAdvances(ratio, run, Read(n), MatchInvoice, Document(n), Matched(n, UNKNOWN), Some(ValidateInvoice));
  }

  lemma UnknownIsReviewed(judged: Row, n: string) returns (review: Row)
    requires exists passed :: ToDecide(judged, n, UNKNOWN, passed)
    ensures ApprovalVerdict(judged) == Done(review, None)
    ensures review.status == NeedsReview && Data(review).Some? && review.matches == [UNKNOWN] && review.exports == []
  {
    var passed :| ToDecide(judged, n, UNKNOWN, passed);
    var reasons := BillIsDecided(judged, n, UNKNOWN, passed);
    review := Concluded(judged, NeedsReview, reasons);
  }

  lemma JudgeOnlyInvoice(ratio: Ratio, run: seq<Step>, matched: Row, input: Input, judged: Row)
    returns (longer: seq<Step>)
    requires Exec(ratio, run) == OnlyInvoice(matched, Some(ValidateInvoice)) && Smooth(run)
    requires ValidationVerdict([], [matched], 0) == Done(judged, Some(ApproveInvoice))
    ensures Exec(ratio, longer) == OnlyInvoice(judged, Some(ApproveInvoice)) && Smooth(longer)
  {
    longer := OnlyInvoiceAdvances(ratio, run, matched, ValidateInvoice, input, judged, Some(ApproveInvoice));
  }

  lemma DecideOnlyInvoice(ratio: Ratio, run: seq<Step>, judged: Row, input: Input, review: Row)
    returns (longer: seq<Step>)
    requires Exec(ratio, run) == OnlyInvoice(judged, Some(ApproveInvoice)) && Smooth(run)
    requires ApprovalVerdict(judged) == Done(review, None)
    ensures Exec(ratio, longer) == OnlyInvoice(review, None) && Smooth(longer)
  {
    longer := OnlyInvoiceAdvances(ratio, run, judged, ApproveInvoice, input, review, None);
  }

  lemma ToReview(ratio: Ratio, n: string) returns (run: seq<Step>, review: Row)
    ensures Exec(ratio, run) == OnlyInvoice(review, None) && Smooth(run)
    ensures review.status == NeedsReview && Data(review).Some? && review.matches == [UNKNOWN] && review.exports == []
  {
    run := ToUnknown(ratio, n);
    var matched := Matched(n, UNKNOWN);
    var judged := BillIsChecked([], [matched], 0, n, UNKNOWN);
    review := UnknownIsReviewed(judged, n);
    run := JudgeOnlyInvoice(ratio, run, matched, Document(n), judged);
    run := DecideOnlyInvoice(ratio, run, judged, Document(n), review);
  }

  /** A reviewer decides on the first invoice. */
  lemma Review(
    ratio: Ratio, run: seq<Step>, w: World, approve: bool, review: Row, decided: Row, next: Option<Kind>)
    returns (longer: seq<Step>)
    requires Exec(ratio, run) == w && w.rows != [] && w.rows[0] == review
    requires HumanVerdict(review, approve, "reviewer", None) == Done(decided, next)
    ensures Exec(ratio, longer) == w.(rows := w.rows[0 := decided], outbox := w.outbox + Enqueued(next, 0))
    ensures Count(ratio, longer) == Count(ratio, run)
    ensures Smooth(run) ==> Smooth(longer)
  {
    longer := Then(ratio, run, Decide(0, approve, "reviewer", None));
  }

  lemma ToHumanApproval(ratio: Ratio, run: seq<Step>, review: Row) returns (longer: seq<Step>, approved: Row)
    requires Exec(ratio, run) == OnlyInvoice(review, None) && Smooth(run) && review.status == NeedsReview
    ensures Exec(ratio, longer) == OnlyInvoice(approved, Some(ExportInvoice)) && Smooth(longer)
    ensures approved.status == Approved
    ensures approved.extractions == review.extractions && approved.matches == review.matches && approved.exports == review.exports
  {
    approved := HumanVerdict(review, true, "reviewer", None).row;
    longer := Review(ratio, run, OnlyInvoice(review, None), true, review, approved, Some(ExportInvoice));
    assert [review][0 := approved] == [approved];
  }

  /**
   An exported invoice need not name a vendor or an order, whatever the export
   contract says: a smooth run ends in an export that has neither.
   */
  lemma ExportWithoutVendor(ratio: Ratio) returns (run: seq<Step>)
    ensures Smooth(run)
    ensures var rows := Exec(ratio, run).rows;
            && |rows| == 1 && rows[0].status == Exported && |rows[0].exports| == 1
            && rows[0].exports[0].payload.vendorId.None? && rows[0].exports[0].payload.poId.None?
  {
    var review, approved;
    run, review := ToReview(ratio, "1");
    run, approved := ToHumanApproval(ratio, run, review);
    var input := Input("", None, [], 0, "");
    var out := BillIsExported(approved, 0, input.exportKey);
    run := OnlyInvoiceAdvances(ratio, run, approved, ExportInvoice, input, out, None);
  }

  // ---- a task that overtakes another ------------------------------------------------------------------

  const VALIDATE_FIRST := Message(ValidateInvoice, 0)

  /** A worker that read the first bill before the second was matched, and has not committed. */
  function Early(n: string, clean: Row): Flight {
    Flight(VALIDATE_FIRST, Matched(n, FOUND), clean, Some(ApproveInvoice))
  }

  /** The first worker still holds its result; `queue` is what is left at the broker. */
  function Pending(n: string, clean: Row, first: Row, second: Row, outbox: multiset<Message>, queue: multiset<Message>): World {
    World([first, second], [SHOP], [ORDER], outbox, queue, multiset{VALIDATE_FIRST}, multiset{}, map[1 := Early(n, clean)])
  }

  lemma Sent(ratio: Ratio, run: seq<Step>, rows: seq<Row>, x: Message, others: multiset<Message>)
    returns (longer: seq<Step>)
    requires Exec(ratio, run) == Waiting(rows, others + multiset{x})
    ensures Exec(ratio, longer) == Waiting(rows, others).(queue := multiset{x})
    ensures Count(ratio, longer) == Count(ratio, run)
  {
    longer := Then(ratio, run, Send(x));
    assert others + multiset{x} - multiset{x} == others;
  }

  lemma SendTwice(ratio: Ratio, run: seq<Step>, rows: seq<Row>, x: Message, others: multiset<Message>)
    returns (longer: seq<Step>)
    requires Exec(ratio, run) == Waiting(rows, others + multiset{x}) && Count(ratio, run) == SPOTLESS
    ensures Exec(ratio, longer) == Waiting(rows, others).(queue := multiset{x, x})
    ensures Count(ratio, longer) == Tally(0, 0, 1, 0)
  {
    longer := Sent(ratio, run, rows, x, others);
    CountOneMore(ratio, longer, Redeliver(x));
    longer := Then(ratio, longer, Redeliver(x));
    assert multiset{x} + multiset{x} == multiset{x, x};
  }

  lemma MatchedFirst(ratio: Ratio, n: string) returns (run: seq<Step>)
    ensures Exec(ratio, run)
         == Waiting([Matched(n, FOUND), NEW_ROW], multiset{Message(ExtractInvoice, 1)})
            .(queue := multiset{VALIDATE_FIRST, VALIDATE_FIRST})
    ensures Count(ratio, run) == Tally(0, 0, 1, 0)
  {
    run := TwoArrivals(ratio);
    run := ToMatched(ratio, run, Exec(ratio, run), 0, n);
    assert [NEW_ROW, NEW_ROW][0 := Matched(n, FOUND)] == [Matched(n, FOUND), NEW_ROW];
    run := SendTwice(ratio, run, [Matched(n, FOUND), NEW_ROW], VALIDATE_FIRST, multiset{Message(ExtractInvoice, 1)});
  }

  /** A worker takes the validation of the first bill and computes its result. */
  lemma BeginValidation(
    ratio: Ratio, run: seq<Step>, w: World, worker: nat, input: Input, judged: Row) returns (longer: seq<Step>)
    requires Exec(ratio, run) == w && VALIDATE_FIRST in w.queue && worker !in w.flights && w.rows != []
    requires ValidationVerdict(w.orders, w.rows, 0) == Done(judged, Some(ApproveInvoice))
    ensures Exec(ratio, longer)
         == w.(queue := w.queue - multiset{VALIDATE_FIRST}, held := w.held + multiset{VALIDATE_FIRST},
               flights := w.flights[worker := Flight(VALIDATE_FIRST, w.rows[0], judged, Some(ApproveInvoice))])
    ensures longer == run + [Begin(worker, VALIDATE_FIRST, input)]
  {
    longer := Then(ratio, run, Begin(worker, VALIDATE_FIRST, input));
  }

  lemma FirstBeginCounts(t: Tally, w: World, worker: nat, input: Input)
    requires w.flights == map[]
    ensures Plus(t, w, Begin(worker, VALIDATE_FIRST, input)) == t
  {
  }

  lemma SecondBeginCounts(t: Tally, w: World, worker: nat, input: Input, f: Flight)
    requires w.flights == map[1 := f] && f.message == VALIDATE_FIRST && worker != 1 && VALIDATE_FIRST in w.queue
    requires w.rows != [] && w.rows[0] == f.before
    ensures Plus(t, w, Begin(worker, VALIDATE_FIRST, input)) == t.(busy := t.busy + 1)
  {
    assert 1 in w.flights && w.flights[1].message.id == 0;
  }

  lemma FirstWorkerReads(ratio: Ratio, n: string) returns (run: seq<Step>, clean: Row)
    ensures Exec(ratio, run)
         == Pending(n, clean, Matched(n, FOUND), NEW_ROW, multiset{Message(ExtractInvoice, 1)}, multiset{VALIDATE_FIRST})
    ensures ToDecide(clean, n, FOUND, true) && |clean.validations| == 1
    ensures Count(ratio, run) == Tally(0, 0, 1, 0)
  {
    var rows := [Matched(n, FOUND), NEW_ROW];
    run := MatchedFirst(ratio, n);
    NothingCompetes(rows, 0, n);
    clean := BillIsChecked([ORDER], rows, 0, n, FOUND);
    FirstBeginCounts(Count(ratio, run), Exec(ratio, run), 1, Document(n));
    CountOneMore(ratio, run, Begin(1, VALIDATE_FIRST, Document(n)));
    run := BeginValidation(ratio, run, Exec(ratio, run), 1, Document(n), clean);
  }

  lemma TheOtherCompetes(n: string, m: string)
    requires n != "" && m != "" && CanonicalNumber(n) == CanonicalNumber(m)
    ensures 1 in DuplicatesOf([Matched(n, FOUND), Matched(m, FOUND)], 0, Bill(n), Some(FOUND))
  {
    var rows := [Matched(n, FOUND), Matched(m, FOUND)];
    assert MatchedTo(rows[1], 0) by {
      assert rows[1].matches[0].vendor.vendorId == Some(0);
    }
    assert Competes(rows, 0, 0, n, 1);
  }

  lemma FirstIsDirty(n: string, m: string) returns (dirty: Row)
    requires n != "" && m != "" && CanonicalNumber(n) == CanonicalNumber(m)
    ensures ValidationVerdict([ORDER], [Matched(n, FOUND), Matched(m, FOUND)], 0) == Done(dirty, Some(ApproveInvoice))
    ensures ToDecide(dirty, n, FOUND, false) && Continues(Matched(n, FOUND), dirty)
  {
    TheOtherCompetes(n, m);
    dirty := BillIsChecked([ORDER], [Matched(n, FOUND), Matched(m, FOUND)], 0, n, FOUND);
  }

  lemma SecondIsMatched(ratio: Ratio, n: string, m: string) returns (run: seq<Step>, clean: Row)
    ensures ToDecide(clean, n, FOUND, true) && |clean.validations| == 1
    ensures Exec(ratio, run)
         == Pending(n, clean, Matched(n, FOUND), Matched(m, FOUND), multiset{Message(ValidateInvoice, 1)}, multiset{VALIDATE_FIRST})
    ensures Count(ratio, run) == Tally(0, 0, 1, 0)
  {
    run, clean := FirstWorkerReads(ratio, n);
    run := ToMatched(ratio, run, Exec(ratio, run), 1, m);
    assert [Matched(n, FOUND), NEW_ROW][1 := Matched(m, FOUND)] == [Matched(n, FOUND), Matched(m, FOUND)];
  }

  /** The second bill is matched, and a second worker takes the redelivered message of the first. */
  lemma SecondWorkerReads(ratio: Ratio, n: string, m: string) returns (run: seq<Step>, clean: Row, dirty: Row)
    requires n != "" && m != "" && CanonicalNumber(n) == CanonicalNumber(m)
    ensures ToDecide(clean, n, FOUND, true) && |clean.validations| == 1
    ensures ToDecide(dirty, n, FOUND, false) && Continues(Matched(n, FOUND), dirty)
    ensures Exec(ratio, run)
         == Pending(n, clean, Matched(n, FOUND), Matched(m, FOUND), multiset{Message(ValidateInvoice, 1)}, multiset{})
            .(held := multiset{VALIDATE_FIRST, VALIDATE_FIRST},
              flights := map[1 := Early(n, clean), 2 := Early(n, dirty)])
    ensures Count(ratio, run) == Tally(1, 0, 1, 0)
  {
    run, clean := SecondIsMatched(ratio, n, m);
    var w := Pending(n, clean, Matched(n, FOUND), Matched(m, FOUND), multiset{Message(ValidateInvoice, 1)}, multiset{VALIDATE_FIRST});
    dirty := FirstIsDirty(n, m);
    SecondBeginCounts(Count(ratio, run), w, 2, Document(n), Early(n, clean));
    CountOneMore(ratio, run, Begin(2, VALIDATE_FIRST, Document(n)));
    run := BeginValidation(ratio, run, w, 2, Document(n), dirty);
    assert w.flights[2 := Early(n, dirty)] == map[1 := Early(n, clean), 2 := Early(n, dirty)];
  }

  /** The second of two workers in flight commits. */
  lemma CommitSecond(ratio: Ratio, run: seq<Step>, w: World, first: Row, second: Row, early: Flight, f: Flight)
    returns (longer: seq<Step>)
    requires Exec(ratio, run) == w && w.rows == [first, second] && w.flights == map[1 := early, 2 := f]
    requires f.message == VALIDATE_FIRST && w.held == multiset{VALIDATE_FIRST, VALIDATE_FIRST}
    requires f.before == first && Continues(first, f.after)
    ensures Exec(ratio, longer)
         == w.(rows := [f.after, second], outbox := w.outbox + Enqueued(f.next, 0),
               held := multiset{VALIDATE_FIRST}, flights := map[1 := early])
    ensures Count(ratio, longer) == Count(ratio, run)
  {
    UndisturbedWrite(first, f.after);
    longer := Then(ratio, run, Commit(2));
    assert w.rows[0 := f.after] == [f.after, second];
    assert w.flights - {2} == map[1 := early];
  }

  /** The second worker commits first. */
  lemma SecondWorkerCommits(ratio: Ratio, n: string, m: string) returns (run: seq<Step>, clean: Row, dirty: Row)
    requires n != "" && m != "" && CanonicalNumber(n) == CanonicalNumber(m)
    ensures ToDecide(clean, n, FOUND, true) && |clean.validations| == 1
    ensures ToDecide(dirty, n, FOUND, false)
    ensures Exec(ratio, run)
         == Pending(n, clean, dirty, Matched(m, FOUND),
                    multiset{Message(ValidateInvoice, 1), Message(ApproveInvoice, 0)}, multiset{})
    ensures Count(ratio, run) == Tally(1, 0, 1, 0)
  {
    run, clean, dirty := SecondWorkerReads(ratio, n, m);
    run := CommitSecond(ratio, run, Exec(ratio, run), Matched(n, FOUND), Matched(m, FOUND), Early(n, clean), Early(n, dirty));
  }

  /** A bill out of the running, as seen by the others. */
  predicate Refused(row: Row, n: string) {
    && row.status == Rejected
    && row.extractions == Read(n).extractions && row.matches == [FOUND] && row.exports == []
  }

  lemma DirtyIsRejected(n: string, dirty: Row) returns (review: Row, rejected: Row)
    requires ToDecide(dirty, n, FOUND, false)
    ensures ApprovalVerdict(dirty) == Done(review, None)
    ensures HumanVerdict(review, false, "reviewer", None) == Done(rejected, None)
    ensures Refused(rejected, n)
  {
    var reasons := BillIsDecided(dirty, n, FOUND, false);
    review := Concluded(dirty, NeedsReview, reasons);
    rejected := HumanVerdict(review, false, "reviewer", None).row;
  }

  lemma FirstIsOvertaken(w: World, f: Flight)
    requires w.flights == map[1 := f] && f.message.id == 0 && w.rows != [] && f.before.status != w.rows[0].status
    ensures Overtaken(w, 0)
  {
    assert 1 in w.flights && w.flights[1] == f;
  }

  /** The approval of the first bill starts while the first worker still holds the older row: the one overtaking. */
  lemma FirstIsReviewed(
    ratio: Ratio, n: string, run: seq<Step>, clean: Row, second: Row, dirty: Row, review: Row)
    returns (longer: seq<Step>)
    requires Exec(ratio, run)
          == Pending(n, clean, dirty, second, multiset{Message(ValidateInvoice, 1), Message(ApproveInvoice, 0)}, multiset{})
    requires ApprovalVerdict(dirty) == Done(review, None) && dirty.status == Validated
    ensures Exec(ratio, longer) == Pending(n, clean, review, second, multiset{Message(ValidateInvoice, 1)}, multiset{})
    ensures Count(ratio, longer) == Overtaking(Count(ratio, run))
  {
    var w := Pending(n, clean, dirty, second, multiset{Message(ValidateInvoice, 1), Message(ApproveInvoice, 0)}, multiset{});
    FirstIsOvertaken(w, Early(n, clean));
    longer := ProcessOvertaking(ratio, run, w, Message(ApproveInvoice, 0), Input("", None, [], 0, ""), review, None);
    assert [dirty, second][0 := review] == [review, second];
  }

  lemma FirstIsRejected(
    ratio: Ratio, n: string, run: seq<Step>, clean: Row, second: Row, dirty: Row, review: Row, rejected: Row)
    returns (longer: seq<Step>)
    requires Exec(ratio, run)
          == Pending(n, clean, dirty, second, multiset{Message(ValidateInvoice, 1), Message(ApproveInvoice, 0)}, multiset{})
    requires ApprovalVerdict(dirty) == Done(review, None) && dirty.status == Validated
    requires HumanVerdict(review, false, "reviewer", None) == Done(rejected, None)
    ensures Exec(ratio, longer) == Pending(n, clean, rejected, second, multiset{Message(ValidateInvoice, 1)}, multiset{})
    ensures Count(ratio, longer) == Overtaking(Count(ratio, run))
  {
    longer := FirstIsReviewed(ratio, n, run, clean, second, dirty, review);
    var reviewed := Pending(n, clean, review, second, multiset{Message(ValidateInvoice, 1)}, multiset{});
    longer := Review(ratio, longer, reviewed, false, review, rejected, None);
    assert [review, second][0 := rejected] == [rejected, second];
  }

  lemma PaySecond(ratio: Ratio, n: string, m: string, run: seq<Step>, clean: Row, rejected: Row)
    returns (longer: seq<Step>, paid: Row)
    requires Exec(ratio, run)
          == Pending(n, clean, rejected, Matched(m, FOUND), multiset{Message(ValidateInvoice, 1)}, multiset{})
    requires Refused(rejected, n)
    ensures Exec(ratio, longer) == Pending(n, clean, rejected, paid, multiset{Message(ExportInvoice, 1)}, multiset{})
    ensures Paid(paid, m)
    ensures Count(ratio, longer) == Count(ratio, run)
  {
    NothingCompetes([rejected, Matched(m, FOUND)], 1, m);
    longer, paid := ToApproved(ratio, run, Exec(ratio, run), 1, m);
    assert [rejected, Matched(m, FOUND)][1 := paid] == [rejected, paid];
  }

  lemma SecondIsPaid(ratio: Ratio, n: string, m: string) returns (run: seq<Step>, clean: Row, rejected: Row, paid: Row)
    requires n != "" && m != "" && CanonicalNumber(n) == CanonicalNumber(m)
    ensures ToDecide(clean, n, FOUND, true) && |clean.validations| == 1 && Refused(rejected, n) && Paid(paid, m)
    ensures Exec(ratio, run) == Pending(n, clean, rejected, paid, multiset{Message(ExportInvoice, 1)}, multiset{})
    ensures Count(ratio, run) == Tally(2, 1, 1, 0)
  {
    var dirty, review;
    run, clean, dirty := SecondWorkerCommits(ratio, n, m);
    review, rejected := DirtyIsRejected(n, dirty);
    run := FirstIsRejected(ratio, n, run, clean, Matched(m, FOUND), dirty, review, rejected);
    run, paid := PaySecond(ratio, n, m, run, clean, rejected);
  }

  /** Writing a stale clearance over a rejected bill. */
  lemma Revives(n: string, rejected: Row, clean: Row)
    requires ToDecide(clean, n, FOUND, true) && |clean.validations| == 1 && Refused(rejected, n)
    ensures ToDecide(Overwritten(rejected, Matched(n, FOUND), clean), n, FOUND, true)
  {
  }

  lemma CommitOf(ratio: Ratio, run: seq<Step>, w: World, first: Row, second: Row, f: Flight) returns (longer: seq<Step>)
    requires Exec(ratio, run) == w && w.rows == [first, second] && w.flights == map[1 := f]
    requires f.message == VALIDATE_FIRST && w.held == multiset{f.message}
    ensures Exec(ratio, longer)
         == w.(rows := [Overwritten(first, f.before, f.after), second],
               outbox := w.outbox + Enqueued(f.next, 0), held := multiset{}, flights := map[])
    ensures Count(ratio, longer) == Count(ratio, run)
  {
    longer := Then(ratio, run, Commit(1));
    assert map[1 := f] - {1} == map[];
    assert w.rows[0 := Overwritten(first, f.before, f.after)] == [Overwritten(first, f.before, f.after), second];
  }

  /** The late commit: the status of the rejected bill is overwritten, and the stale clearance appended. */
  lemma LateCommit(ratio: Ratio, n: string, run: seq<Step>, clean: Row, rejected: Row, paid: Row)
    returns (longer: seq<Step>, revived: Row)
    requires ToDecide(clean, n, FOUND, true) && |clean.validations| == 1 && Refused(rejected, n)
    requires Exec(ratio, run) == Pending(n, clean, rejected, paid, multiset{Message(ExportInvoice, 1)}, multiset{})
    ensures ToDecide(revived, n, FOUND, true)
    ensures Exec(ratio, longer)
         == Waiting([revived, paid], multiset{Message(ExportInvoice, 1), Message(ApproveInvoice, 0)})
    ensures Count(ratio, longer) == Count(ratio, run)
  {
    Revives(n, rejected, clean);
    revived := Overwritten(rejected, Matched(n, FOUND), clean);
    longer := CommitOf(ratio, run, Exec(ratio, run), rejected, paid, Early(n, clean));
  }

  /**
   One overtaken start is enough. Two usable numbers that count as the same are both
   approved in a run with one redelivery, of a message in the queue; two starts on a
   busy invoice, of which one overtakes the task in flight; and nothing invented.
   */
  lemma OvertakingApprovesTwice(ratio: Ratio, n: string, m: string) returns (run: seq<Step>)
    requires n != "" && m != "" && SameText(n, m)
    ensures BothApproved(ratio, run, n, m, 0, 1)
    ensures Count(ratio, run) == Tally(2, 1, 1, 0)
    ensures BusyStarts(ratio, run) == 2 && OvertakenStarts(ratio, run) == 1
  {
    var clean, rejected, second, revived;
    CanonicalNumberDecides(n, m);
    run, clean, rejected, second := SecondIsPaid(ratio, n, m);
    run, revived := LateCommit(ratio, n, run, clean, rejected, second);
    var first := BillIsApproved(n, revived);
    run := RevivedIsPaid(ratio, run, n, m, revived, first, second);
    CountMeans(ratio, run);
  }

  lemma RevivedIsPaid(ratio: Ratio, run: seq<Step>, n: string, m: string, revived: Row, first: Row, second: Row)
    returns (longer: seq<Step>)
    requires ApprovalVerdict(revived) == Done(first, Some(ExportInvoice)) && Paid(first, n) && Paid(second, m)
    requires Exec(ratio, run)
          == Waiting([revived, second], multiset{Message(ExportInvoice, 1), Message(ApproveInvoice, 0)})
    ensures BothApproved(ratio, longer, n, m, 0, 1) && Count(ratio, longer) == Count(ratio, run)
  {
    var w := Waiting([revived, second], multiset{Message(ExportInvoice, 1), Message(ApproveInvoice, 0)});
    longer := ToDecided(ratio, run, w, 0, revived, first);
    assert [revived, second][0 := first] == [first, second];
    BothPaid(ratio, longer, n, m, first, second);
  }

  // ---- exactly when ----------------------------------------------------------------------------------

  lemma NumbersAreSameCase(ratio: Ratio, run: seq<Step>, n: string, m: string, a: nat, b: nat)
    requires BothApproved(ratio, run, n, m, a, b) && n != "" && m != "" && SameText(n, m)
    ensures OvertakenStarts(ratio, run) >= 1
  {
    if NeverOvertaken(ratio, run) {
      var rows := Exec(ratio, run).rows;
      var x :| Holds(rows[a], x) && x.invoiceNumber == Some(n);
      var y :| Holds(rows[b], y) && y.invoiceNumber == Some(m);
      var v: nat :| VendorIs(rows[a], v) && VendorIs(rows[b], v);
      var i :| 0 <= i < |rows[a].audit| && rows[a].audit[i].to == AutoApproved;
      var j :| 0 <= j < |rows[b].audit| && rows[b].audit[j].to == AutoApproved;
      NoNumberIsPaidTwice(ratio, run, a, b, v, x, y, i, j);
    }
  }

  /**
   The exact limits of duplicate exclusion, for two numbers that count as the same.
   A run with at most `k` overtaken starts can approve both exactly when one of them
   is the empty string or `k` is at least one; a run with at most `k` busy starts,
   exactly when one is the empty string or `k` is at least two.
   */
  lemma BothApprovedExactlyWhen(ratio: Ratio, n: string, m: string, k: nat)
    requires SameText(n, m)
    ensures (exists run, a, b :: BothApproved(ratio, run, n, m, a, b) && OvertakenStarts(ratio, run) <= k)
            <==> n == "" || m == "" || k >= 1
    ensures (exists run, a, b :: BothApproved(ratio, run, n, m, a, b) && BusyStarts(ratio, run) <= k)
            <==> n == "" || m == "" || k >= 2
  {
    if n == "" || m == "" {
      var run := UnnumberedAreBothPaid(ratio, n, m);
      SmoothIsUndisturbed(ratio, run);
      assert BothApproved(ratio, run, n, m, 0, 1) && OvertakenStarts(ratio, run) <= k && BusyStarts(ratio, run) <= k;
    } else {
      CanonicalNumberDecides(n, m);
      var run := OvertakingApprovesTwice(ratio, n, m);
      assert k >= 1 ==> BothApproved(ratio, run, n, m, 0, 1) && OvertakenStarts(ratio, run) <= k;
      assert k >= 2 ==> BothApproved(ratio, run, n, m, 0, 1) && BusyStarts(ratio, run) <= k;
      forall run, a: nat, b: nat | BothApproved(ratio, run, n, m, a, b)
        ensures OvertakenStarts(ratio, run) >= 1 && BusyStarts(ratio, run) >= 2
      {
        NumbersAreSameCase(ratio, run, n, m, a, b);
        FewerOvertakenStarts(ratio, run);
      }
    }
  }

  // ---- two reviewers at once -----------------------------------------------------------------------------

  /**
   Were two reviewers to read the same row and write blindly, one approving and one
   rejecting after it, the invoice would be rejected with its approval still in the
   log, and the log would no longer be a path. The system's own approvals stay as
   they are.
   */
  lemma RacedReviewsBreakReplay(row: Row, first: string, second: string)
    requires row.status == NeedsReview && Connected(row.audit)
    ensures var approved, rejected := HumanVerdict(row, true, first, None), HumanVerdict(row, false, second, None);
            approved.Done? && rejected.Done?
            && var both := Overwritten(approved.row, row, rejected.row);
            && both.status == Rejected
            && ApprovalEntry(both.audit).Some?
            && !Connected(both.audit)
            && (ApprovedBySystem(both) <==> ApprovedBySystem(row))
  {
    var both := Overwritten(HumanVerdict(row, true, first, None).row, row, HumanVerdict(row, false, second, None).row);
    var x, y := AuditEntry(NeedsReview, Approved, first, None), AuditEntry(NeedsReview, Rejected, second, None);
    assert both.audit == row.audit + [x] + [y];
    RacedLog(row.audit, x, y);
    NoHopIsNew(row, both, x, y);
  }

  lemma RacedLog(audit: seq<AuditEntry>, x: AuditEntry, y: AuditEntry)
    requires x.to == Approved && y.to == Rejected && y.from != Approved
    ensures ApprovalEntry(audit + [x] + [y]).Some? && !Connected(audit + [x] + [y])
  {
    var log := audit + [x] + [y];
    assert log[..|audit| + 1] == audit + [x];
    assert log[|audit| + 1] == y && Visited(log)[|audit| + 1] == x.to;
  }

  lemma NoHopIsNew(row: Row, both: Row, x: AuditEntry, y: AuditEntry)
    requires both.audit == row.audit + [x] + [y] && AutoApproved !in {x.to, y.to}
    ensures ApprovedBySystem(both) <==> ApprovedBySystem(row)
  {
    var n := |row.audit|;
    assert forall i :: 0 <= i < n ==> both.audit[i] == row.audit[i];
  }
}
