/**
 The queue tasks and the reviewer's requests, each a transaction followed by the
 message it enqueues. Every one of them is an atomic step of the pipeline.
 */
module Tasks {
  import opened Options
  import opened Lifecycle
  import opened VendorMatching
  import opened Records
  import opened RowInvariants
  import opened Pipeline
  import opened Guarantees
  import opened Services

  /** A stage run on a loaded invoice did what the verdict says, and `next` is what to enqueue. */
  predicate Reported(v: Verdict, before: Row, after: Row, raised: bool, next: Option<Kind>) {
    && (raised <==> v.Raised?)
    && (v.Skipped? ==> after == before && next == None)
    && (v.Done? ==> after == v.row && next == v.next)
  }

  /** What a task run amounts to: consume the message, and commit or lose it. */
  predicate Accounted(w: World, m: Message, v: Verdict, u: World) {
    && (v.Skipped? ==> u == w.(queue := w.queue - multiset{m}))
    && (v.Raised? ==> u == w.(queue := w.queue - multiset{m}, lost := w.lost + multiset{m}))
    && (v.Done? ==> m.id < |w.rows|
                    && u == w.(rows := w.rows[m.id := v.row], queue := w.queue - multiset{m},
                               outbox := w.outbox + Enqueued(v.next, m.id)))
  }

  lemma DeliverSettles(ratio: Ratio, w: World, m: Message, input: Input) returns (v: Verdict, u: World)
    requires m in w.queue && w.flights == map[]
    ensures v == Handle(ratio, w.vendors, w.orders, w.rows, m.kind, m.id, input)
    ensures u == Apply(ratio, w, Deliver(0, m, input))
    ensures Accounted(w, m, v, u)
    ensures m.id >= |w.rows| ==> v.Raised?
  {
    v := Handle(ratio, w.vendors, w.orders, w.rows, m.kind, m.id, input);
    u := Apply(ratio, w, Deliver(0, m, input));
    if v.Done? {
      DeliverCommits(ratio, w, 0, m, input);
    }
  }

  lemma DecideSettles(ratio: Ratio, w: World, id: nat, approve: bool, actor: string, reason: Option<Note>)
    returns (v: Verdict, u: World)
    requires id < |w.rows|
    ensures v == HumanVerdict(w.rows[id], approve, actor, reason)
    ensures u == Apply(ratio, w, Decide(id, approve, actor, reason))
    ensures v.Done? <==> w.rows[id].status == NeedsReview
    ensures v.Done? ==> v.next == if approve then Some(Kind.ExportInvoice) else None
    ensures u == if v.Done? then w.(rows := w.rows[id := v.row], outbox := w.outbox + Enqueued(v.next, id)) else w
  {
    v := HumanVerdict(w.rows[id], approve, actor, reason);
    u := Apply(ratio, w, Decide(id, approve, actor, reason));
    HumanFollowsStatus(w.rows[id], approve, actor, reason);
  }

  class Deployment {
    const ratio: Ratio
    var rows: seq<Row>
    var vendors: seq<Vendor>
    var orders: seq<PurchaseOrder>
    var outbox: multiset<Message>
    var queue: multiset<Message>
    var lost: multiset<Message>

    /** The state of the transition system, with no task in flight. */
    function Now(): World
      reads this
    {
      World(rows, vendors, orders, outbox, queue, multiset{}, lost, map[])
    }

    constructor (ratio: Ratio)
      ensures Now() == EMPTY && this.ratio == ratio
    {
      this.ratio := ratio;
      rows, vendors, orders := [], [], [];
      outbox, queue, lost := multiset{}, multiset{}, multiset{};
    }

    method RollBack(m: Message)
      requires m in queue
      modifies this`queue, this`lost
      ensures Now() == old(Now()).(queue := old(queue) - multiset{m}, lost := old(lost) + multiset{m})
    {
      queue, lost := queue - multiset{m}, lost + multiset{m};
    }

    method CommitAndEnqueue(m: Message, row: Row, next: Option<Kind>)
      requires m in queue && m.id < |rows|
      modifies this`rows, this`outbox, this`queue
      ensures Now() == old(Now()).(rows := old(rows)[m.id := row], queue := old(queue) - multiset{m},
                                   outbox := old(outbox) + Enqueued(next, m.id))
    {
      queue := queue - multiset{m};
      rows := rows[m.id := row];
      if next.Some? {
        outbox := outbox + multiset{Message(next.value, m.id)};
      }
      assert next.None? ==> outbox + Enqueued(next, m.id) == outbox;
    }

    /**
     The end of a transaction. On an exception the session is rolled back and the
     message is gone; otherwise the invoice is written back and committed, and
     only then the next message is enqueued.
     */
    method CloseSession(m: Message, invoice: Invoice, raised: bool, next: Option<Kind>, ghost v: Verdict, ghost u: World)
      requires m in queue && m.id < |rows|
      requires Reported(v, rows[m.id], invoice.Snapshot(), raised, next) && Accounted(Now(), m, v, u)
      modifies this`rows, this`outbox, this`queue, this`lost
      ensures Now() == u
    {
      if raised {
        RollBack(m);
      } else {
        CommitAndEnqueue(m, invoice.Snapshot(), next);
        assert old(rows)[m.id := old(rows)[m.id]] == old(rows);
        assert old(outbox) + Enqueued(None, m.id) == old(outbox);
      }
    }

    /** `session.get` found no invoice: the task raises. */
    method UnknownInvoice(m: Message, ghost v: Verdict, ghost u: World)
      requires m in queue && v.Raised? && Accounted(Now(), m, v, u)
      modifies this`queue, this`lost
      ensures Now() == u
    {
      RollBack(m);
    }

    method ExtractStage(id: nat, input: Input) returns (invoice: Invoice, raised: bool, next: Option<Kind>)
      requires id < |rows|
      ensures fresh(invoice)
      ensures Reported(Handle(ratio, vendors, orders, rows, Kind.ExtractInvoice, id, input), rows[id], invoice.Snapshot(), raised, next)
    {
      invoice := new Invoice.Load(rows[id]);
      var extraction;
      raised, extraction := RunExtraction(invoice, input);
      next := if extraction.Some? && extraction.value.ok then Some(Kind.MatchInvoice) else None;
    }

    method ExtractInvoice(id: nat, input: Input)
      requires Message(Kind.ExtractInvoice, id) in queue
      modifies this`rows, this`outbox, this`queue, this`lost
      ensures Now() == Apply(ratio, old(Now()), Deliver(0, Message(Kind.ExtractInvoice, id), input))
    {
      var m := Message(Kind.ExtractInvoice, id);
      ghost var v, u := DeliverSettles(ratio, Now(), m, input);
      if id >= |rows| {
        UnknownInvoice(m, v, u);
      } else {
        var invoice, raised, next := ExtractStage(id, input);
        CloseSession(m, invoice, raised, next, v, u);
      }
    }

    method MatchStage(id: nat, input: Input) returns (invoice: Invoice, raised: bool, next: Option<Kind>)
      requires id < |rows|
      ensures fresh(invoice)
      ensures Reported(Handle(ratio, vendors, orders, rows, Kind.MatchInvoice, id, input), rows[id], invoice.Snapshot(), raised, next)
    {
      invoice := new Invoice.Load(rows[id]);
      var result;
      raised, result := RunMatching(invoice, ratio, vendors, orders);
      next := if result.Some? then Some(Kind.ValidateInvoice) else None;
    }

    method MatchInvoice(id: nat, input: Input)
      requires Message(Kind.MatchInvoice, id) in queue
      modifies this`rows, this`outbox, this`queue, this`lost
      ensures Now() == Apply(ratio, old(Now()), Deliver(0, Message(Kind.MatchInvoice, id), input))
    {
      var m := Message(Kind.MatchInvoice, id);
      ghost var v, u := DeliverSettles(ratio, Now(), m, input);
      if id >= |rows| {
        UnknownInvoice(m, v, u);
      } else {
        var invoice, raised, next := MatchStage(id, input);
        CloseSession(m, invoice, raised, next, v, u);
      }
    }

    method ValidateStage(id: nat, input: Input) returns (invoice: Invoice, raised: bool, next: Option<Kind>)
      requires id < |rows|
      ensures fresh(invoice)
      ensures Reported(Handle(ratio, vendors, orders, rows, Kind.ValidateInvoice, id, input), rows[id], invoice.Snapshot(), raised, next)
    {
      invoice := new Invoice.Load(rows[id]);
      var result;
      raised, result := RunValidation(invoice, id, rows, orders);
      next := if result.Some? then Some(Kind.ApproveInvoice) else None;
    }

    method ValidateInvoice(id: nat, input: Input)
      requires Message(Kind.ValidateInvoice, id) in queue
      modifies this`rows, this`outbox, this`queue, this`lost
      ensures Now() == Apply(ratio, old(Now()), Deliver(0, Message(Kind.ValidateInvoice, id), input))
    {
      var m := Message(Kind.ValidateInvoice, id);
      ghost var v, u := DeliverSettles(ratio, Now(), m, input);
      if id >= |rows| {
        UnknownInvoice(m, v, u);
      } else {
        var invoice, raised, next := ValidateStage(id, input);
        CloseSession(m, invoice, raised, next, v, u);
      }
    }

    method ApproveStage(id: nat, input: Input) returns (invoice: Invoice, raised: bool, next: Option<Kind>)
      requires id < |rows|
      ensures fresh(invoice)
      ensures Reported(Handle(ratio, vendors, orders, rows, Kind.ApproveInvoice, id, input), rows[id], invoice.Snapshot(), raised, next)
    {
      invoice := new Invoice.Load(rows[id]);
      var decision;
      raised, decision := RunApproval(invoice);
      next := if decision.Some? && decision.value.outcome == AutoApproved then Some(Kind.ExportInvoice) else None;
    }

    method ApproveInvoice(id: nat, input: Input)
      requires Message(Kind.ApproveInvoice, id) in queue
      modifies this`rows, this`outbox, this`queue, this`lost
      ensures Now() == Apply(ratio, old(Now()), Deliver(0, Message(Kind.ApproveInvoice, id), input))
    {
      var m := Message(Kind.ApproveInvoice, id);
      ghost var v, u := DeliverSettles(ratio, Now(), m, input);
      if id >= |rows| {
        UnknownInvoice(m, v, u);
      } else {
        var invoice, raised, next := ApproveStage(id, input);
        CloseSession(m, invoice, raised, next, v, u);
      }
    }

    method ExportStage(id: nat, input: Input) returns (invoice: Invoice, raised: bool, next: Option<Kind>)
      requires id < |rows|
      ensures fresh(invoice)
      ensures Reported(Handle(ratio, vendors, orders, rows, Kind.ExportInvoice, id, input), rows[id], invoice.Snapshot(), raised, next)
    {
      invoice := new Invoice.Load(rows[id]);
      var artifact;
      raised, artifact := RunExport(invoice, id, input.exportKey);
      next := None;
    }

    method ExportInvoice(id: nat, input: Input)
      requires Message(Kind.ExportInvoice, id) in queue
      modifies this`rows, this`outbox, this`queue, this`lost
      ensures Now() == Apply(ratio, old(Now()), Deliver(0, Message(Kind.ExportInvoice, id), input))
    {
      var m := Message(Kind.ExportInvoice, id);
      ghost var v, u := DeliverSettles(ratio, Now(), m, input);
      if id >= |rows| {
        UnknownInvoice(m, v, u);
      } else {
        var invoice, raised, next := ExportStage(id, input);
        CloseSession(m, invoice, raised, next, v, u);
      }
    }

    /** A reviewer approves: the decision is committed before the export is enqueued. */
    method ApproveAndExport(id: nat, actor: string, reason: Option<Note>) returns (raised: bool)
      modifies this`rows, this`outbox
      ensures Now() == Apply(ratio, old(Now()), Decide(id, true, actor, reason))
      ensures raised <==> id >= |old(rows)| || old(rows)[id].status != NeedsReview
      ensures raised ==> Now() == old(Now())
    {
      if id >= |rows| {
        return true;
      }
      ghost var v, u := DecideSettles(ratio, Now(), id, true, actor, reason);
      var invoice := new Invoice.Load(rows[id]);
      raised := RecordHumanDecision(invoice, true, actor, reason);
      if !raised {
        rows := rows[id := invoice.Snapshot()];
        outbox := outbox + multiset{Message(Kind.ExportInvoice, id)};
      }
    }

    /** A reviewer rejects: a pure transition, nothing is enqueued. */
    method Reject(id: nat, actor: string, reason: Option<Note>) returns (raised: bool)
      modifies this`rows
      ensures Now() == Apply(ratio, old(Now()), Decide(id, false, actor, reason))
      ensures raised <==> id >= |old(rows)| || old(rows)[id].status != NeedsReview
      ensures raised ==> Now() == old(Now())
    {
      if id >= |rows| {
        return true;
      }
      ghost var v, u := DecideSettles(ratio, Now(), id, false, actor, reason);
      var invoice := new Invoice.Load(rows[id]);
      raised := RecordHumanDecision(invoice, false, actor, reason);
      if !raised {
        rows := rows[id := invoice.Snapshot()];
        assert outbox + multiset{} == outbox;
      }
    }
  }
}
