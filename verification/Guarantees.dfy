/** What the pipeline guarantees in every state that a permitted run reaches. */
module Guarantees {
  import opened Options
  import opened Lifecycle
  import opened Rules
  import opened ApprovalPolicy
  import opened VendorMatching
  import opened Records
  import opened StageMeanings
  import opened Text
  import opened RowInvariants
  import opened Pipeline
  import opened PipelineInvariants
  import opened PipelineFrames
  import opened PipelineRuns
  import opened Exclusion
  import opened WakeUps
  import opened Draining

  lemma ReachedRowIsSound(ratio: Ratio, run: seq<Step>, id: nat)
    requires Undisturbed(ratio, run) && id < |Exec(ratio, run).rows|
    ensures var w := Exec(ratio, run); Sound(ratio, w.vendors, w.orders, id, w.rows[id])
  {
    RunKeepsInv(ratio, run);
    var w := Exec(ratio, run);
    assert SoundIn(ratio, w.vendors, w.orders)(id, w.rows[id]);
  }

  // ---- one row ----------------------------------------------------------------------

  /** The log starts at RECEIVED, takes legal hops only, and ends at the current status. */
  lemma LogReplays(row: Row)
    requires OnRoad(row)
    ensures Connected(row.audit)
    ensures LegalPath(Visited(row.audit))
    ensures Visited(row.audit)[|row.audit|] == row.status
    ensures |row.audit| <= 9
    ensures !Transient(row.status)
    ensures row.status == Failed ==> Visited(row.audit) == [Received, Extracting, Failed]
  {
    if Visited(row.audit) == Road(row.status, false) {
      RoadFacts(row.status, false);
    } else {
      RoadFacts(row.status, true);
    }
  }

  lemma RoadFacts(status: Status, human: bool)
    ensures var road := Road(status, human);
            road != [] ==>
              && LegalPath(road) && |road| <= 10 && road[|road| - 1] == status && !Transient(status)
              && (status == Failed ==> road == [Received, Extracting, Failed])
              && (AutoApproved in road ==> status in {AutoApproved, Exported})
  {
    RoadIsLegal(status, human);
    match status case _ =>
  }

  lemma RoadIsLegal(status: Status, human: bool)
    ensures Road(status, human) != [] ==> LegalPath(Road(status, human))
  {
    match status case _ =>
  }

  /** Audit replay, at most one row of each kind, and no transient status, in every reachable state. */
  lemma CommittedRows(ratio: Ratio, run: seq<Step>, id: nat)
    requires Undisturbed(ratio, run) && id < |Exec(ratio, run).rows|
    ensures var row := Exec(ratio, run).rows[id];
            && Connected(row.audit) && LegalPath(Visited(row.audit)) && |row.audit| <= 9
            && Visited(row.audit)[|row.audit|] == row.status
            && row.status !in {Extracting, Matching, Exporting}
            && (row.status == Failed ==> Visited(row.audit) == [Received, Extracting, Failed])
            && |row.extractions| <= 1 && |row.matches| <= 1 && |row.validations| <= 1 && |row.exports| <= 1
            && (row.status !in {Received, Failed} ==> Data(row).Some?)
            && (row.status == Validated ==> |row.validations| == 1)
            && (row.status == Exported <==> |row.exports| == 1)
  {
    ReachedRowIsSound(ratio, run, id);
    var row := Exec(ratio, run).rows[id];
    LogReplays(row);
    ChildrenOf(row);
  }

  lemma ChildrenOf(row: Row)
    requires Complete(row) && !Transient(row.status)
    ensures |row.extractions| <= 1 && |row.matches| <= 1 && |row.validations| <= 1 && |row.exports| <= 1
    ensures row.status !in {Received, Failed} ==> Data(row).Some?
    ensures row.status == Validated ==> |row.validations| == 1
    ensures row.status == Exported <==> |row.exports| == 1
  {
    if row.status !in {Received, Failed} {
      DataIsThere(row);
    }
  }

  /** No task ever raises for want of data: only the call to the model can raise. */
  lemma NoMissingDataBranch(ratio: Ratio, run: seq<Step>, m: Message, input: Input)
    requires Undisturbed(ratio, run) && m.id < |Exec(ratio, run).rows|
    ensures var w := Exec(ratio, run);
            var v := Handle(ratio, w.vendors, w.orders, w.rows, m.kind, m.id, input);
            && (v.Raised? ==> m.kind == ExtractInvoice && Attempt(input).None?)
            && (v.Done? && v.row.status == Failed ==> m.kind == ExtractInvoice)
  {
    var w := Exec(ratio, run);
    ReachedRowIsSound(ratio, run, m.id);
    StageKeepsSound(ratio, w.vendors, w.orders, w.rows, m.kind, m.id, input);
    var v := Handle(ratio, w.vendors, w.orders, w.rows, m.kind, m.id, input);
    if v.Done? && v.row.status == Failed {
      StageContinues(ratio, w.vendors, w.orders, w.rows, m.kind, m.id, input);
      StageFollowsStatus(ratio, w.vendors, w.orders, w.rows, m.kind, m.id, input);
      LogReplays(w.rows[m.id]);
      LogReplays(v.row);
      PrefixOfFailure(w.rows[m.id], v.row);
    }
  }

  /** An invoice can only fail before it was extracted. */
  lemma PrefixOfFailure(before: Row, after: Row)
    requires OnRoad(before) && OnRoad(after) && after.status == Failed
    requires IsPrefix(before.audit, after.audit) && Rank(Failed) < Rank(before.status)
    ensures before.status == Received
  {
    RoadEndsAtStatus(before.status, false);
    assert |Visited(before.audit)| <= 3;
    assert Visited(before.audit)[|before.audit|] == Visited(after.audit)[|before.audit|];
  }

  // ---- append-only ----------------------------------------------------------------------

  lemma OverwritingContinues(current: Row, before: Row, after: Row)
    ensures Continues(current, Overwritten(current, before, after))
  {
  }

  lemma DecisionContinues(row: Row, approve: bool, actor: string, reason: Option<Note>)
    requires HumanVerdict(row, approve, actor, reason).Done?
    ensures Continues(row, HumanVerdict(row, approve, actor, reason).row)
  {
  }

  lemma FinishedContinues(w: World, worker: nat, id: nat)
    requires worker in w.flights && id < |w.rows|
    ensures var u := Finished(w, worker); |u.rows| == |w.rows| && Continues(w.rows[id], u.rows[id])
  {
    var f := w.flights[worker];
    if f.message.id == id {
      OverwritingContinues(w.rows[id], f.before, f.after);
    }
  }

  lemma DecidedContinues(w: World, i: nat, approve: bool, actor: string, reason: Option<Note>, id: nat)
    requires i < |w.rows| && id < |w.rows|
    ensures var u := Decided(w, i, approve, actor, reason);
            |u.rows| == |w.rows| && Continues(w.rows[id], u.rows[id])
  {
    if i == id && HumanVerdict(w.rows[id], approve, actor, reason).Done? {
      DecisionContinues(w.rows[id], approve, actor, reason);
    }
  }

  lemma StartedKeepsRows(ratio: Ratio, w: World, worker: nat, m: Message, input: Input)
    requires m in w.queue
    ensures Started(ratio, w, worker, m, input).rows == w.rows
  {
  }

  lemma StepContinues(ratio: Ratio, w: World, s: Step, id: nat)
    requires id < |w.rows|
    ensures id < |Apply(ratio, w, s).rows| && Continues(w.rows[id], Apply(ratio, w, s).rows[id])
  {
    var u := Apply(ratio, w, s);
    if !Enabled(w, s) {
      assert u == w;
    } else if s.Commit? {
      FinishedContinues(w, s.worker, id);
    } else if s.Deliver? {
      DeliverContinues(ratio, w, s.worker, s.message, s.input, id);
    } else if s.Decide? {
      DecidedContinues(w, s.id, s.approve, s.actor, s.reason, id);
    } else if s.Begin? {
      StartedKeepsRows(ratio, w, s.worker, s.message, s.input);
    } else {
      assert u.rows == w.rows || u.rows == w.rows + [NEW_ROW];
    }
  }

  lemma DeliverContinues(ratio: Ratio, w: World, k: nat, m: Message, input: Input, id: nat)
    requires id < |w.rows| && m in w.queue && k !in w.flights
    ensures var u := Apply(ratio, w, Deliver(k, m, input));
            |u.rows| == |w.rows| && Continues(w.rows[id], u.rows[id])
  {
    var started := Started(ratio, w, k, m, input);
    StartedKeepsRows(ratio, w, k, m, input);
    if k in started.flights {
      FinishedContinues(started, k, id);
    }
  }

  lemma PrefixOn<T>(a: seq<T>, b: seq<T>, c: seq<T>)
    requires IsPrefix(a, b) && IsPrefix(b, c)
    ensures IsPrefix(a, c)
  {
    assert c[..|a|] == c[..|b|][..|a|];
  }

  lemma ContinuesOn(a: Row, b: Row, c: Row)
    requires Continues(a, b) && Continues(b, c)
    ensures Continues(a, c)
  {
    PrefixOn(a.extractions, b.extractions, c.extractions);
    PrefixOn(a.matches, b.matches, c.matches);
    PrefixOn(a.validations, b.validations, c.validations);
    PrefixOn(a.audit, b.audit, c.audit);
    PrefixOn(a.exports, b.exports, c.exports);
  }

  lemma OneMoreStep(ratio: Ratio, w: World, s: Step, id: nat, before: Row)
    requires id < |w.rows| && Continues(before, w.rows[id])
    ensures id < |Apply(ratio, w, s).rows| && Continues(before, Apply(ratio, w, s).rows[id])
  {
    StepContinues(ratio, w, s, id);
    ContinuesOn(before, w.rows[id], Apply(ratio, w, s).rows[id]);
  }

  lemma LastStepContinues(ratio: Ratio, front: seq<Step>, s: Step, id: nat, before: Row)
    requires id < |Exec(ratio, front).rows| && Continues(before, Exec(ratio, front).rows[id])
    ensures id < |Exec(ratio, front + [s]).rows| && Continues(before, Exec(ratio, front + [s]).rows[id])
  {
    ExecLast(ratio, front, s);
    OneMoreStep(ratio, Exec(ratio, front), s, id, before);
  }

  lemma {:induction false} HistoryFrom(ratio: Ratio, run: seq<Step>, more: seq<Step>, id: nat, before: Row)
    requires id < |Exec(ratio, run).rows| && Continues(before, Exec(ratio, run).rows[id])
    ensures id < |Exec(ratio, run + more).rows| && Continues(before, Exec(ratio, run + more).rows[id])
    decreases |more|
  {
    if more == [] {
      assert run + more == run;
    } else {
      LastStepContinues(ratio, run, more[0], id, before);
      HistoryFrom(ratio, run + [more[0]], more[1..], id, before);
      assert run + [more[0]] + more[1..] == run + more;
    }
  }

  /** In every run whatever, permitted or not, no audit entry and no child row is ever changed or removed. */
  lemma HistoryOnlyGrows(ratio: Ratio, run: seq<Step>, more: seq<Step>, id: nat)
    requires id < |Exec(ratio, run).rows|
    ensures id < |Exec(ratio, run + more).rows|
    ensures Continues(Exec(ratio, run).rows[id], Exec(ratio, run + more).rows[id])
  {
    HistoryFrom(ratio, run, more, id, Exec(ratio, run).rows[id]);
  }

  // ---- duplicates ----------------------------------------------------------------------

  lemma ApprovedMeans(v: Validation, e: Extraction, m: Option<Match>)
    requires DecisionFor(v, e, m).outcome == AutoApproved
    ensures v.passed && VendorIdentified(m) && HasPo(m) && Sure(e.confidence)
  {
    DecisionOutcome(v.passed, VendorIdentified(m), HasPo(m), ConfidenceOf(e));
    SureMeans(e);
  }

  /** Duplicate exclusion in an undisturbed run, and so in either regime. */
  lemma UndisturbedExcludesDuplicates(ratio: Ratio, run: seq<Step>, a: nat, b: nat)
    requires Undisturbed(ratio, run) || exists regime :: Permitted(regime, run)
    requires a != b && a < |Exec(ratio, run).rows| && b < |Exec(ratio, run).rows|
    requires ApprovedBySystem(Exec(ratio, run).rows[a]) && ApprovedBySystem(Exec(ratio, run).rows[b])
    ensures !SameCase(Exec(ratio, run).rows[a], Exec(ratio, run).rows[b])
  {
    if !Undisturbed(ratio, run) {
      var regime :| Permitted(regime, run);
      PermittedIsUndisturbed(ratio, regime, run);
    }
    FewerOvertakenStarts(ratio, run);
    NoDoubleAutoApproval(ratio, run, a, b);
  }

  // ---- auto-approval ------------------------------------------------------------------------

  /** The vendor was decided on in the table as it was at some earlier time. */
  ghost predicate OnceResolved(ratio: Ratio, invoice: ExtractedInvoice, vendors: seq<Vendor>, vendorId: nat) {
    exists n: nat :: n <= |vendors| && Resolves(ratio, invoice.supplierTaxId, invoice.supplierName, vendors[..n], vendorId)
  }

  /** The order was the only one with the number quoted in the table as it was at some earlier time. */
  ghost predicate OnceQuoted(invoice: ExtractedInvoice, orders: seq<PurchaseOrder>, poId: nat) {
    exists n: nat :: n <= |orders| && OnlyQuoted(invoice.purchaseOrderNumber, orders[..n], poId)
  }

  /**
   End to end: what is true of every invoice the system approved on its own. The
   vendor was identified without a guess in the vendor table as it was when the
   invoice was matched; the order is the one the invoice quotes, and belongs to that
   vendor; the stored confidence is high on all five critical fields.
   */
  lemma AutoApprovalIsSound(ratio: Ratio, run: seq<Step>, id: nat)
    returns (invoice: ExtractedInvoice, vendorId: nat, poId: nat)
    requires Undisturbed(ratio, run) && id < |Exec(ratio, run).rows|
    requires ApprovedBySystem(Exec(ratio, run).rows[id])
    ensures var row := Exec(ratio, run).rows[id];
            && |row.extractions| == 1 && row.extractions[0].ok && row.extractions[0].invoice == Some(invoice)
            && Sure(row.extractions[0].confidence)
            && |row.matches| == 1
            && row.matches[0].vendor.vendorId == Some(vendorId) && row.matches[0].po.poId == Some(poId)
    ensures var w := Exec(ratio, run);
            && poId < |w.orders|
            && OnceResolved(ratio, invoice, w.vendors, vendorId)
            && OnceQuoted(invoice, w.orders, poId)
            && NormalizeCode(Some(w.orders[poId].poNumber)) == NormalizeCode(invoice.purchaseOrderNumber) != ""
            && w.orders[poId].vendorId == vendorId
            && RequiredFields(invoice)
            && AddsUp(invoice)
            && NearOrder(invoice, AsSnapshot(w.orders[poId]))
            && SameCurrency(invoice, AsSnapshot(w.orders[poId]))
  {
    var w := Exec(ratio, run);
    ReachedRowIsSound(ratio, run, id);
    var row := w.rows[id];
    DataIsThere(row);
    invoice := row.extractions[0].invoice.value;
    var m := row.matches[0];
    ApprovedMeans(row.validations[0], row.extractions[0], Some(m));
    vendorId, poId := m.vendor.vendorId.value, m.po.poId.value;
    MatchWasMade(ratio, w.vendors, w.orders, invoice, m);
    PassedMeans(w.orders, invoice, m, row.validations[0]);
  }

  function AsSnapshot(order: PurchaseOrder): PoSnapshot {
    PoSnapshot(order.poNumber, order.currency, order.total, order.vendorId)
  }

  lemma MatchWasMade(ratio: Ratio, vendors: seq<Vendor>, orders: seq<PurchaseOrder>, invoice: ExtractedInvoice, m: Match)
    requires MatchJustified(ratio, vendors, orders, invoice, m)
    ensures m.vendor.vendorId.Some? ==> OnceResolved(ratio, invoice, vendors, m.vendor.vendorId.value)
    ensures m.po.poId.Some? ==>
              && OnceQuoted(invoice, orders, m.po.poId.value)
              && m.po.poId.value < |orders|
              && NormalizeCode(Some(orders[m.po.poId.value].poNumber)) == NormalizeCode(invoice.purchaseOrderNumber) != ""
  {
    var v: nat, o: nat :| v <= |vendors| && o <= |orders| && m == MatchOf(ratio, vendors[..v], orders[..o], invoice);
    var early, earlier := vendors[..v], orders[..o];
    MatchOfMeans(ratio, early, earlier, invoice);
    VendorWasMatched(ratio, vendors, early, earlier, v, invoice, m);
    OrderWasMatched(ratio, orders, early, earlier, o, invoice, m);
  }

  lemma VendorWasMatched(
    ratio: Ratio, vendors: seq<Vendor>, early: seq<Vendor>, earlier: seq<PurchaseOrder>, v: nat, invoice: ExtractedInvoice, m: Match)
    requires v <= |vendors| && early == vendors[..v] && IsMatch(ratio, early, earlier, invoice, m)
    ensures m.vendor.vendorId.Some? ==> OnceResolved(ratio, invoice, vendors, m.vendor.vendorId.value)
  {
  }

  lemma OrderWasMatched(
    ratio: Ratio, orders: seq<PurchaseOrder>, early: seq<Vendor>, earlier: seq<PurchaseOrder>, o: nat, invoice: ExtractedInvoice, m: Match)
    requires o <= |orders| && earlier == orders[..o] && IsMatch(ratio, early, earlier, invoice, m)
    ensures m.po.poId.Some? ==>
              && OnceQuoted(invoice, orders, m.po.poId.value)
              && m.po.poId.value < |orders|
              && NormalizeCode(Some(orders[m.po.poId.value].poNumber)) == NormalizeCode(invoice.purchaseOrderNumber) != ""
  {
    if m.po.poId.Some? {
      assert OnlyQuoted(invoice.purchaseOrderNumber, earlier, m.po.poId.value);
    }
  }

  /** In whole cents: at most two cents off its own sum, and at most the exact two per cent off its order. */
  lemma AutoApprovalOnCents(ratio: Ratio, run: seq<Step>, id: nat, total: int, ordered: int)
    returns (invoice: ExtractedInvoice, poId: nat)
    requires Undisturbed(ratio, run) && id < |Exec(ratio, run).rows|
    requires ApprovedBySystem(Exec(ratio, run).rows[id])
    ensures var row := Exec(ratio, run).rows[id];
            && |row.extractions| == 1 && row.extractions[0].invoice == Some(invoice) && invoice.total.Some?
            && |row.matches| == 1 && row.matches[0].po.poId == Some(poId) && poId < |Exec(ratio, run).orders|
    ensures IsAmount(invoice.total.value, total) && IsAmount(Exec(ratio, run).orders[poId].total, ordered) && ordered > 0 ==>
              -ordered <= 50 * (total - ordered) <= ordered
    ensures forall subtotal: int, tax: int ::
              IsAmount(invoice.total.value, total)
              && invoice.subtotal.Some? && IsAmount(invoice.subtotal.value, subtotal)
              && invoice.taxAmount.Some? && IsAmount(invoice.taxAmount.value, tax) ==>
                -2 <= subtotal + tax - total <= 2
  {
    var vendorId;
    invoice, vendorId, poId := AutoApprovalIsSound(ratio, run, id);
    CentsOf(invoice, AsSnapshot(Exec(ratio, run).orders[poId]), total, ordered);
  }

  lemma CentsOf(invoice: ExtractedInvoice, po: PoSnapshot, total: int, ordered: int)
    requires RequiredFields(invoice) && AddsUp(invoice) && NearOrder(invoice, po)
    ensures IsAmount(invoice.total.value, total) && IsAmount(po.total, ordered) && ordered > 0 ==>
              -ordered <= 50 * (total - ordered) <= ordered
    ensures forall subtotal: int, tax: int ::
              IsAmount(invoice.total.value, total)
              && invoice.subtotal.Some? && IsAmount(invoice.subtotal.value, subtotal)
              && invoice.taxAmount.Some? && IsAmount(invoice.taxAmount.value, tax) ==>
                -2 <= subtotal + tax - total <= 2
  {
    if IsAmount(invoice.total.value, total) && IsAmount(po.total, ordered) && ordered > 0 {
      NearOrderOnCents(invoice, po, total, ordered);
    }
    forall subtotal: int, tax: int |
      IsAmount(invoice.total.value, total)
      && invoice.subtotal.Some? && IsAmount(invoice.subtotal.value, subtotal)
      && invoice.taxAmount.Some? && IsAmount(invoice.taxAmount.value, tax)
      ensures -2 <= subtotal + tax - total <= 2
    {
      AddsUpOnCents(invoice, subtotal, tax, total);
    }
  }

  lemma PassedMeans(orders: seq<PurchaseOrder>, invoice: ExtractedInvoice, m: Match, v: Validation)
    requires v == Judge(orders, invoice, Some(m), v.duplicates) && v.passed
    requires m.po.poId.Some? && m.po.poId.value < |orders| && m.vendor.vendorId.Some?
    ensures var order := orders[m.po.poId.value];
            var po := PoSnapshot(order.poNumber, order.currency, order.total, order.vendorId);
            && RequiredFields(invoice) && AddsUp(invoice)
            && NearOrder(invoice, po) && SameCurrency(invoice, po) && order.vendorId == m.vendor.vendorId.value
  {
    CleanExactlyWhen(ValidationInput(invoice, OrderSnapshot(orders, Some(m)), MatchedVendor(Some(m)), v.duplicates));
  }

  // ---- exports ---------------------------------------------------------------------------------

  /** The audit entry at `k` is the only one that approves, and it is the one the backward scan returns. */
  predicate OnlyApproval(audit: seq<AuditEntry>, k: nat) {
    && k < |audit|
    && (forall i :: 0 <= i < |audit| ==> (audit[i].to in {AutoApproved, Approved} <==> i == k))
    && ApprovalEntry(audit) == Some(audit[k])
  }

  /** The one export of a row carries this approval, the extracted invoice and the matched vendor and order. */
  ghost predicate Names(id: nat, row: Row, entry: AuditEntry) {
    && |row.exports| == 1 && |row.matches| == 1 && |row.extractions| == 1 && row.extractions[0].invoice.Some?
    && var m := row.matches[0];
    && row.exports[0].payload
       == Payload(id, entry.to, row.extractions[0].invoice.value, m.vendor.vendorId, m.po.poId, Some(entry.actor), entry.reason)
    && (entry.to == AutoApproved ==> m.vendor.vendorId.Some? && m.po.poId.Some?)
  }

  /**
   Every export names the one approval its invoice ever had: its status, its
   actor and its reason. A system approval is always exported with a vendor and
   an order.
   */
  lemma ExportProvenance(ratio: Ratio, run: seq<Step>, id: nat) returns (k: nat)
    requires Undisturbed(ratio, run) && id < |Exec(ratio, run).rows|
    requires Exec(ratio, run).rows[id].status == Exported
    ensures var row := Exec(ratio, run).rows[id];
            OnlyApproval(row.audit, k) && Names(id, row, row.audit[k])
  {
    var w := Exec(ratio, run);
    ReachedRowIsSound(ratio, run, id);
    k := ExportedRowFacts(ratio, w.vendors, w.orders, id, w.rows[id]);
  }

  lemma ExportedRowFacts(ratio: Ratio, vendors: seq<Vendor>, orders: seq<PurchaseOrder>, id: nat, row: Row)
    returns (k: nat)
    requires Sound(ratio, vendors, orders, id, row) && row.status == Exported
    ensures OnlyApproval(row.audit, k) && Names(id, row, row.audit[k])
  {
    ExportNamesEntry(ratio, vendors, orders, id, row);
    ApprovalHopIsUnique(row);
    k := |row.audit| - 3;
  }

  lemma ExportNamesEntry(ratio: Ratio, vendors: seq<Vendor>, orders: seq<PurchaseOrder>, id: nat, row: Row)
    requires Sound(ratio, vendors, orders, id, row) && row.status == Exported
    ensures |row.audit| >= 3 && Names(id, row, row.audit[|row.audit| - 3])
  {
    PayloadNamesEntry(ratio, vendors, orders, id, row);
    SystemApprovalNamesBoth(ratio, vendors, orders, id, row, |row.audit| - 3);
    PayloadFields(id, row, row.audit[|row.audit| - 3]);
  }

  lemma PayloadFields(id: nat, row: Row, entry: AuditEntry)
    requires |row.exports| == 1 && |row.matches| == 1 && |row.extractions| == 1 && row.extractions[0].invoice.Some?
    requires row.exports[0].payload == PayloadOf(id, entry.to, row.extractions[0].invoice.value, Some(row.matches[0]), Some(entry))
    requires entry.to == AutoApproved ==> row.matches[0].vendor.vendorId.Some? && row.matches[0].po.poId.Some?
    ensures Names(id, row, entry)
  {
  }

  lemma PayloadNamesEntry(ratio: Ratio, vendors: seq<Vendor>, orders: seq<PurchaseOrder>, id: nat, row: Row)
    requires Sound(ratio, vendors, orders, id, row) && row.status == Exported
    ensures |row.exports| == 1 && |row.matches| == 1 && |row.audit| >= 3
    ensures |row.extractions| == 1 && row.extractions[0].invoice.Some?
    ensures var entry := row.audit[|row.audit| - 3];
            row.exports[0].payload
            == PayloadOf(id, entry.to, row.extractions[0].invoice.value, Some(row.matches[0]), Some(entry))
  {
    DataIsThere(row);
  }

  lemma SystemApprovalNamesBoth(
    ratio: Ratio, vendors: seq<Vendor>, orders: seq<PurchaseOrder>, id: nat, row: Row, k: nat)
    requires Sound(ratio, vendors, orders, id, row) && k < |row.audit|
    ensures row.audit[k].to == AutoApproved ==>
              && |row.matches| == 1
              && row.matches[0].vendor.vendorId.Some? && row.matches[0].po.poId.Some?
  {
    if row.audit[k].to == AutoApproved {
      assert ApprovedBySystem(row);
      ApprovedMeans(row.validations[0], row.extractions[0], Some(row.matches[0]));
    }
  }

  lemma ApprovalHopIsUnique(row: Row)
    requires OnRoad(row) && row.status == Exported && |row.audit| >= 3
    ensures OnlyApproval(row.audit, |row.audit| - 3)
  {
    LogApprovesOnce(row);
    OnlyApprovalOfRoad(row.audit, Visited(row.audit));
  }

  lemma LogApprovesOnce(row: Row)
    requires OnRoad(row) && row.status == Exported
    ensures ApprovedOnce(Visited(row.audit))
  {
    if Visited(row.audit) == Road(Exported, false) {
      ExportRoad(false);
    } else {
      ExportRoad(true);
    }
  }

  lemma OnlyApprovalOfRoad(audit: seq<AuditEntry>, road: seq<Status>)
    requires road == Visited(audit) && |audit| >= 3 && ApprovedOnce(road)
    ensures OnlyApproval(audit, |audit| - 3)
  {
    HopsOfRoad(audit, road);
    ScanBackTo(audit, |audit| - 3);
  }

  /** The only approving status of a road is the third from its end. */
  predicate ApprovedOnce(road: seq<Status>) {
    forall i :: 0 <= i < |road| ==> (road[i] in {AutoApproved, Approved} <==> i == |road| - 3)
  }

  lemma HopsOfRoad(audit: seq<AuditEntry>, road: seq<Status>)
    requires road == Visited(audit) && |audit| >= 3 && ApprovedOnce(road)
    ensures forall i :: 0 <= i < |audit| ==> (audit[i].to in {AutoApproved, Approved} <==> i == |audit| - 3)
  {
    forall i | 0 <= i < |audit| ensures audit[i].to in {AutoApproved, Approved} <==> i == |audit| - 3 {
      assert audit[i].to == road[i + 1];
    }
  }

  lemma ExportRoad(human: bool)
    ensures ApprovedOnce(Road(Exported, human))
  {
  }

  lemma {:induction false} ScanBackTo(audit: seq<AuditEntry>, k: nat)
    requires k < |audit| && audit[k].to in {AutoApproved, Approved}
    requires forall i :: k < i < |audit| ==> audit[i].to !in {AutoApproved, Approved}
    ensures ApprovalEntry(audit) == Some(audit[k])
  {
    if k < |audit| - 1 {
      ScanBackTo(audit[..|audit| - 1], k);
    }
  }

  // ---- messages -------------------------------------------------------------------------------------

  /** With at-most-once delivery every invoice has exactly the message its status calls for. */
  lemma WakeUpsAreConserved(ratio: Ratio, run: seq<Step>, m: Message)
    requires Permitted(AtMostOnceDelivery, run)
    ensures Tokens(Exec(ratio, run))[m] == Expected(Exec(ratio, run).rows, m)
  {
    AtMostOnceKeepsTokens(ratio, run);
  }

  /** A message that the invoice does not wait for is consumed and changes nothing else. */
  lemma StaleMessageChangesNothing(ratio: Ratio, w: World, worker: nat, m: Message, input: Input)
    requires m in w.queue && worker !in w.flights
    requires m.id < |w.rows| && Wakes(w.rows[m.id].status) != Some(m.kind)
    ensures Apply(ratio, w, Deliver(worker, m, input)) == w.(queue := w.queue - multiset{m})
  {
    StageFollowsStatus(ratio, w.vendors, w.orders, w.rows, m.kind, m.id, input);
  }

  /** An undisturbed task run writes its result and its next message, and uses up its own. */
  lemma DeliverCommits(ratio: Ratio, w: World, worker: nat, m: Message, input: Input)
    requires m in w.queue && worker !in w.flights && m.id < |w.rows|
    requires Handle(ratio, w.vendors, w.orders, w.rows, m.kind, m.id, input).Done?
    ensures var v := Handle(ratio, w.vendors, w.orders, w.rows, m.kind, m.id, input);
            Apply(ratio, w, Deliver(worker, m, input))
            == w.(rows := w.rows[m.id := v.row], queue := w.queue - multiset{m},
                  outbox := w.outbox + Enqueued(v.next, m.id))
  {
    var v := Handle(ratio, w.vendors, w.orders, w.rows, m.kind, m.id, input);
    StageContinues(ratio, w.vendors, w.orders, w.rows, m.kind, m.id, input);
    var started := Started(ratio, w, worker, m, input);
    DeliverIs(ratio, w, worker, m, input, started);
    StartedDone(ratio, w, worker, m, input);
    UndisturbedWrite(w.rows[m.id], v.row);
    assert w.held + multiset{m} - multiset{m} == w.held;
    assert w.flights[worker := started.flights[worker]] - {worker} == w.flights;
  }

  lemma StartedDone(ratio: Ratio, w: World, worker: nat, m: Message, input: Input)
    requires m in w.queue && worker !in w.flights && m.id < |w.rows|
    requires Handle(ratio, w.vendors, w.orders, w.rows, m.kind, m.id, input).Done?
    ensures var v := Handle(ratio, w.vendors, w.orders, w.rows, m.kind, m.id, input);
            Started(ratio, w, worker, m, input)
            == w.(queue := w.queue - multiset{m}, held := w.held + multiset{m},
                  flights := w.flights[worker := Flight(m, w.rows[m.id], v.row, v.next)])
  {
  }

  /** Delivering a message a second time has no effect on any table or on the outbox. */
  lemma SecondDeliveryChangesNothing(
    ratio: Ratio, w: World, j: nat, k: nat, m: Message, first: Input, second: Input)
    requires j !in w.flights && k !in w.flights
    requires w.queue[m] >= 2 && m.id < |w.rows|
    requires Handle(ratio, w.vendors, w.orders, w.rows, m.kind, m.id, first).Done?
    ensures var once := Apply(ratio, w, Deliver(j, m, first));
            Apply(ratio, once, Deliver(k, m, second)) == once.(queue := once.queue - multiset{m})
  {
    var v := Handle(ratio, w.vendors, w.orders, w.rows, m.kind, m.id, first);
    DeliverCommits(ratio, w, j, m, first);
    StageFollowsStatus(ratio, w.vendors, w.orders, w.rows, m.kind, m.id, first);
    if Wakes(v.row.status) == Some(m.kind) {
      SameTaskSameRank(v.row.status, w.rows[m.id].status);
    }
    StaleMessageChangesNothing(ratio, Apply(ratio, w, Deliver(j, m, first)), k, m, second);
  }

  // ---- draining -----------------------------------------------------------------------------------------

  /** From the state after any run at all, the system runs out of internal steps within the budget. */
  lemma DrainTerminates(ratio: Ratio, run: seq<Step>, drain: seq<Step>)
    requires Drain(ratio, Exec(ratio, run), drain)
    ensures |drain| <= Budget(Exec(ratio, run))
  {
    NoWakeUpMissing(ratio, run);
    RunCarried(ratio, run);
    DrainIsBounded(ratio, Exec(ratio, run), drain);
  }

  /**
   After any run at all: when no internal step is left, every invoice that is not
   settled has its wake-up among the lost messages.
   */
  lemma QuietMeansSettled(ratio: Ratio, run: seq<Step>, id: nat)
    requires Quiet(Exec(ratio, run)) && id < |Exec(ratio, run).rows|
    ensures var w := Exec(ratio, run);
            var status := w.rows[id].status;
            Settled(status) || (Wakes(status).Some? && Message(Wakes(status).value, id) in w.lost)
  {
    var w := Exec(ratio, run);
    RunCarried(ratio, run);
    QuietMeansEmpty(w);
    NoWakeUpMissing(ratio, run);
    var status := w.rows[id].status;
    WaitingOrSettled(status);
    if Wakes(status).Some? {
      assert Tokens(w)[Message(Wakes(status).value, id)] >= Expected(w.rows, Message(Wakes(status).value, id));
    }
  }

  // ---- nothing lost -----------------------------------------------------------------------------------------

  /** No task is killed, nothing dies between commit and enqueue, the model answers, and every message is about an invoice. */
  predicate Harmless(w: World, s: Step) {
    match s
    case Fail(_) => false
    case Abort(_) => false
    case CrashBeforeSend(_) => false
    case Redeliver(m) => m.id < |w.rows|
    case Begin(_, m, input) => m.kind == ExtractInvoice ==> Attempt(input).Some?
    case Deliver(_, m, input) => m.kind == ExtractInvoice ==> Attempt(input).Some?
    case _ => true
  }

  predicate AllHarmless(ratio: Ratio, run: seq<Step>) {
    run == [] ||
      var n := |run| - 1;
      AllHarmless(ratio, run[..n]) && Harmless(Exec(ratio, run[..n]), run[n])
  }

  /** Nothing is lost so far, and every message is about an invoice. */
  ghost predicate Intact(w: World) {
    && w.lost == multiset{}
    && (forall m :: m in w.outbox || m in w.queue ==> m.id < |w.rows|)
    && (forall k :: k in w.flights ==> w.flights[k].message.id < |w.rows|)
  }

  lemma CannotRaise(ratio: Ratio, w: World, m: Message, input: Input)
    requires Inv(ratio, w) && m.id < |w.rows| && (m.kind == ExtractInvoice ==> Attempt(input).Some?)
    ensures !Handle(ratio, w.vendors, w.orders, w.rows, m.kind, m.id, input).Raised?
  {
    assert SoundIn(ratio, w.vendors, w.orders)(m.id, w.rows[m.id]);
    StageKeepsSound(ratio, w.vendors, w.orders, w.rows, m.kind, m.id, input);
  }

  lemma StartedIntact(ratio: Ratio, w: World, k: nat, m: Message, input: Input)
    requires Intact(w) && m in w.queue && k !in w.flights
    requires !Handle(ratio, w.vendors, w.orders, w.rows, m.kind, m.id, input).Raised?
    ensures Intact(Started(ratio, w, k, m, input))
  {
  }

  lemma FinishedIntact(w: World, k: nat)
    requires Intact(w) && k in w.flights
    ensures Intact(Finished(w, k))
  {
    assert |Finished(w, k).rows| == |w.rows|;
  }

  lemma TaskIntact(ratio: Ratio, w: World, s: Step)
    requires Intact(w) && Inv(ratio, w) && Enabled(w, s) && Harmless(w, s)
    requires s.Begin? || s.Commit? || s.Deliver?
    ensures Intact(Apply(ratio, w, s))
  {
    if s.Commit? {
      FinishedIntact(w, s.worker);
    } else {
      CannotRaise(ratio, w, s.message, s.input);
      StartedIntact(ratio, w, s.worker, s.message, s.input);
      if s.Deliver? {
        var started := Started(ratio, w, s.worker, s.message, s.input);
        DeliverIs(ratio, w, s.worker, s.message, s.input, started);
        if s.worker in started.flights {
          FinishedIntact(started, s.worker);
        }
      }
    }
  }

  lemma StepIntact(ratio: Ratio, w: World, s: Step)
    requires Intact(w) && Inv(ratio, w) && Harmless(w, s)
    ensures Intact(Apply(ratio, w, s))
  {
    if !Enabled(w, s) {
      assert Apply(ratio, w, s) == w;
    } else if s.Begin? || s.Commit? || s.Deliver? {
      TaskIntact(ratio, w, s);
    }
  }

  lemma {:induction false} NothingIsLost(ratio: Ratio, run: seq<Step>)
    requires Undisturbed(ratio, run) && AllHarmless(ratio, run)
    ensures Intact(Exec(ratio, run))
  {
    if run != [] {
      var n := |run| - 1;
      LastStart(ratio, run);
      NothingIsLost(ratio, run[..n]);
      RunKeepsInv(ratio, run[..n]);
      StepIntact(ratio, Exec(ratio, run[..n]), run[n]);
      ExecFront(ratio, run);
    }
  }

  /** When no task raises and nothing dies, an empty queue means that every invoice is settled. */
  lemma QuietAndHarmlessMeansAllSettled(ratio: Ratio, run: seq<Step>)
    requires Undisturbed(ratio, run) && AllHarmless(ratio, run) && Quiet(Exec(ratio, run))
    ensures Exec(ratio, run).lost == multiset{}
    ensures forall id :: 0 <= id < |Exec(ratio, run).rows| ==> Settled(Exec(ratio, run).rows[id].status)
  {
    NothingIsLost(ratio, run);
    forall id | 0 <= id < |Exec(ratio, run).rows| ensures Settled(Exec(ratio, run).rows[id].status) {
      QuietMeansSettled(ratio, run, id);
    }
  }

  // ---- redelivery adds nothing --------------------------------------------------------------------------------

  /** Neither redelivered, nor lost, nor split: the steps of a system in which nothing goes wrong. */
  predicate Smooth(run: seq<Step>) {
    forall i :: 0 <= i < |run| ==>
      run[i].Arrive? || run[i].Send? || run[i].Deliver? || run[i].Decide? || run[i].AddVendor? || run[i].AddOrder?
  }

  /** The same rows and tables. */
  predicate SameTables(w: World, v: World) {
    w.rows == v.rows && w.vendors == v.vendors && w.orders == v.orders
  }

  /** Every message is where it can still be delivered. */
  ghost predicate Flowing(w: World) {
    ExactTokens(w) && w.held == multiset{} && w.lost == multiset{} && w.flights == map[]
  }

  lemma DoneKeepsTokens(w: World, v: World, m: Message, row: Row, next: Option<Kind>)
    requires Flowing(w) && m in w.queue && m.id < |w.rows|
    requires Wakes(w.rows[m.id].status) == Some(m.kind) && next == Wakes(row.status) && next != Some(m.kind)
    requires v == w.(rows := w.rows[m.id := row], queue := w.queue - multiset{m}, outbox := w.outbox + Enqueued(next, m.id))
    ensures Flowing(v)
  {
    assert Enqueued(Wakes(w.rows[m.id].status), m.id) == multiset{m};
    HandOver(w, v, m.id);
  }

  lemma DeliverFlows(ratio: Ratio, w: World, m: Message, input: Input)
    requires Flowing(w) && m in w.queue && m.id < |w.rows|
    requires Handle(ratio, w.vendors, w.orders, w.rows, m.kind, m.id, input).Done?
    ensures var v := Handle(ratio, w.vendors, w.orders, w.rows, m.kind, m.id, input);
            var u := Apply(ratio, w, Deliver(0, m, input));
            Flowing(u) && u.rows == w.rows[m.id := v.row] && u.vendors == w.vendors && u.orders == w.orders
  {
    var v := Handle(ratio, w.vendors, w.orders, w.rows, m.kind, m.id, input);
    StageFollowsStatus(ratio, w.vendors, w.orders, w.rows, m.kind, m.id, input);
    if v.next == Some(m.kind) {
      SameTaskSameRank(v.row.status, w.rows[m.id].status);
    }
    DeliverCommits(ratio, w, 0, m, input);
    DoneKeepsTokens(w, Apply(ratio, w, Deliver(0, m, input)), m, v.row, v.next);
  }

  lemma SendFlows(ratio: Ratio, w: World, m: Message)
    requires Flowing(w) && m in w.outbox
    ensures var u := Apply(ratio, w, Send(m)); Flowing(u) && SameTables(u, w) && m in u.queue
  {
    BrokerMovesTokens(ratio, w, Send(m));
    MoveKeepsTokens(w, Apply(ratio, w, Send(m)));
  }

  /** The message that an invoice waits for can be brought to the queue. */
  lemma Fetch(ratio: Ratio, run: seq<Step>, m: Message) returns (longer: seq<Step>)
    requires Smooth(run) && Flowing(Exec(ratio, run))
    requires m.id < |Exec(ratio, run).rows| && Wakes(Exec(ratio, run).rows[m.id].status) == Some(m.kind)
    ensures Smooth(longer) && Flowing(Exec(ratio, longer)) && SameTables(Exec(ratio, longer), Exec(ratio, run))
    ensures m in Exec(ratio, longer).queue
  {
    var w := Exec(ratio, run);
    assert Tokens(w)[m] == Expected(w.rows, m) == 1;
    if m in w.queue {
      longer := run;
    } else {
      longer := run + [Send(m)];
      ExecLast(ratio, run, Send(m));
      SendFlows(ratio, w, m);
    }
  }

  /** A delivery that commits in one system can be made in the other. */
  lemma MirrorDelivery(ratio: Ratio, w: World, run: seq<Step>, m: Message, input: Input) returns (longer: seq<Step>)
    requires Smooth(run) && Flowing(Exec(ratio, run)) && SameTables(w, Exec(ratio, run)) && m.id < |w.rows|
    requires Handle(ratio, w.vendors, w.orders, w.rows, m.kind, m.id, input).Done?
    ensures Smooth(longer) && Flowing(Exec(ratio, longer))
    ensures var v := Handle(ratio, w.vendors, w.orders, w.rows, m.kind, m.id, input);
            SameTables(w.(rows := w.rows[m.id := v.row]), Exec(ratio, longer))
  {
    StageFollowsStatus(ratio, w.vendors, w.orders, w.rows, m.kind, m.id, input);
    var fetched := Fetch(ratio, run, m);
    DeliverFlows(ratio, Exec(ratio, fetched), m, input);
    longer := fetched + [Deliver(0, m, input)];
    ExecLast(ratio, fetched, Deliver(0, m, input));
  }

  lemma EventFlows(ratio: Ratio, v: World, s: Step)
    requires Flowing(v) && (s.Arrive? || s.Decide? || s.AddVendor? || s.AddOrder?)
    ensures Flowing(Apply(ratio, v, s))
  {
    if s.Arrive? {
      ArriveKeepsTokens(v, Apply(ratio, v, s));
    } else if s.Decide? {
      if Enabled(v, s) {
        DecideKeepsTokens(v, s.id, s.approve, s.actor, s.reason);
      }
    } else {
      BrokerMovesTokens(ratio, v, s);
      MoveKeepsTokens(v, Apply(ratio, v, s));
    }
  }

  lemma EventTables(ratio: Ratio, w: World, v: World, s: Step)
    requires SameTables(w, v) && (s.Arrive? || s.Decide? || s.AddVendor? || s.AddOrder?)
    ensures SameTables(Apply(ratio, w, s), Apply(ratio, v, s))
  {
  }

  lemma MirrorEvent(ratio: Ratio, w: World, run: seq<Step>, s: Step) returns (longer: seq<Step>)
    requires Smooth(run) && Flowing(Exec(ratio, run)) && SameTables(w, Exec(ratio, run))
    requires s.Arrive? || s.Decide? || s.AddVendor? || s.AddOrder?
    ensures Smooth(longer) && Flowing(Exec(ratio, longer)) && SameTables(Apply(ratio, w, s), Exec(ratio, longer))
  {
    longer := run + [s];
    ExecLast(ratio, run, s);
    EventFlows(ratio, Exec(ratio, run), s);
    EventTables(ratio, w, Exec(ratio, run), s);
  }

  lemma DeliverTables(ratio: Ratio, w: World, k: nat, m: Message, input: Input)
    requires w.flights == map[] && m in w.queue
    requires m.id >= |w.rows| || !Handle(ratio, w.vendors, w.orders, w.rows, m.kind, m.id, input).Done?
    ensures SameTables(Apply(ratio, w, Deliver(k, m, input)), w)
  {
  }

  lemma MirrorStep(ratio: Ratio, w: World, run: seq<Step>, s: Step) returns (longer: seq<Step>)
    requires Smooth(run) && Flowing(Exec(ratio, run)) && SameTables(w, Exec(ratio, run))
    requires w.flights == map[] && !s.Begin?
    ensures Smooth(longer) && Flowing(Exec(ratio, longer)) && SameTables(Apply(ratio, w, s), Exec(ratio, longer))
  {
    longer := run;
    if !Enabled(w, s) {
      assert Apply(ratio, w, s) == w;
    } else if s.Arrive? || s.Decide? || s.AddVendor? || s.AddOrder? {
      longer := MirrorEvent(ratio, w, run, s);
    } else if s.Deliver? {
      var m := s.message;
      if m.id < |w.rows| && Handle(ratio, w.vendors, w.orders, w.rows, m.kind, m.id, s.input).Done? {
        DeliverCommits(ratio, w, s.worker, m, s.input);
        longer := MirrorDelivery(ratio, w, run, m, s.input);
      } else {
        DeliverTables(ratio, w, s.worker, m, s.input);
      }
    }
  }

  /**
   With atomic tasks, messages may be repeated, invented, lost and reordered as they
   like: whatever tables result can also be reached with nothing repeated and nothing
   lost.
   */
  lemma {:induction false} RedeliveryAddsNothing(ratio: Ratio, run: seq<Step>) returns (smooth: seq<Step>)
    requires Permitted(AtomicTasks, run)
    ensures Smooth(smooth) && SameTables(Exec(ratio, run), Exec(ratio, smooth))
    ensures Flowing(Exec(ratio, smooth))
  {
    if run == [] {
      smooth := [];
      EmptyIsFine(ratio);
    } else {
      var front, s := run[..|run| - 1], run[|run| - 1];
      assert forall i :: 0 <= i < |front| ==> front[i] == run[i];
      smooth := RedeliveryAddsNothing(ratio, front);
      AtomicTasksHaveNoFlights(ratio, front);
      smooth := MirrorStep(ratio, Exec(ratio, front), smooth, s);
      ExecFront(ratio, run);
    }
  }
}
