/** Every step of the pipeline keeps the invariant. */
module PipelineSteps {
  import opened Options
  import opened Lifecycle
  import opened VendorMatching
  import opened Records
  import opened RowInvariants
  import opened Pipeline
  import opened PipelineInvariants
  import opened PipelineFrames

  // ---- Begin -------------------------------------------------------------------------

  lemma NewFlightProgress(
    ratio: Ratio, vendors: seq<Vendor>, orders: seq<PurchaseOrder>, rows: seq<Row>, m: Message, input: Input)
    requires m.id < |rows|
    requires Handle(ratio, vendors, orders, rows, m.kind, m.id, input).Done?
    ensures var v := Handle(ratio, vendors, orders, rows, m.kind, m.id, input);
            Progress(Flight(m, rows[m.id], v.row, v.next))
  {
    StageFollowsStatus(ratio, vendors, orders, rows, m.kind, m.id, input);
    StageContinues(ratio, vendors, orders, rows, m.kind, m.id, input);
  }

  lemma NewFlightSound(ratio: Ratio, w: World, m: Message, input: Input)
    requires RowsSound(SoundIn(ratio, w.vendors, w.orders), w) && m.id < |w.rows|
    requires Handle(ratio, w.vendors, w.orders, w.rows, m.kind, m.id, input).Done?
    ensures var v := Handle(ratio, w.vendors, w.orders, w.rows, m.kind, m.id, input);
            FlightSound(SoundIn(ratio, w.vendors, w.orders), w, Flight(m, w.rows[m.id], v.row, v.next))
  {
    var ok := SoundIn(ratio, w.vendors, w.orders);
    assert ok(m.id, w.rows[m.id]);
    NewFlightProgress(ratio, w.vendors, w.orders, w.rows, m, input);
    StageKeepsSound(ratio, w.vendors, w.orders, w.rows, m.kind, m.id, input);
  }

  lemma BeginKeeps(ok: RowTest, ratio: Ratio, w: World, worker: nat, m: Message, input: Input)
    requires ok == SoundIn(ratio, w.vendors, w.orders)
    requires Invariant(ok, w) && m in w.queue && worker !in w.flights && Idle(w, m.id)
    ensures Invariant(ok, Started(ratio, w, worker, m, input))
  {
    var v := Handle(ratio, w.vendors, w.orders, w.rows, m.kind, m.id, input);
    match v {
      case Skipped => QueuesKeep(ok, w, w.outbox, w.queue - multiset{m}, w.lost);
      case Raised => QueuesKeep(ok, w, w.outbox, w.queue - multiset{m}, w.lost + multiset{m});
      case Done(row, next) =>
        NewFlightSound(ratio, w, m, input);
        StartKeeps(ok, w, worker, Flight(m, w.rows[m.id], row, next), w.queue - multiset{m});
    }
  }

  lemma BeginKeepsInv(ratio: Ratio, w: World, worker: nat, m: Message, input: Input)
    requires Inv(ratio, w) && m in w.queue && worker !in w.flights && Idle(w, m.id)
    ensures Inv(ratio, Started(ratio, w, worker, m, input))
  {
    BeginKeeps(SoundIn(ratio, w.vendors, w.orders), ratio, w, worker, m, input);
  }

  // ---- the other steps ------------------------------------------------------------------

  lemma ArriveKeepsInv(ratio: Ratio, w: World, outbox: multiset<Message>)
    requires Inv(ratio, w)
    ensures Inv(ratio, w.(rows := w.rows + [NEW_ROW], outbox := outbox))
  {
    NewRowIsSound(ratio, w.vendors, w.orders, |w.rows|);
    ArriveKeeps(SoundIn(ratio, w.vendors, w.orders), w, outbox);
  }

  lemma TablesKeepInv(ratio: Ratio, w: World, v: seq<Vendor>, o: seq<PurchaseOrder>)
    requires Inv(ratio, w)
    ensures Inv(ratio, w.(vendors := w.vendors + v, orders := w.orders + o))
  {
    var ok, wider := SoundIn(ratio, w.vendors, w.orders), SoundIn(ratio, w.vendors + v, w.orders + o);
    forall id: int, row: Row | ok(id, row) ensures wider(id, row) {
      SoundAsTablesGrow(ratio, w.vendors, w.orders, v, o, id, row);
    }
    TablesKeep(ok, wider, w, w.vendors + v, w.orders + o);
  }

  lemma ReviewKeeps(ok: RowTest, w: World, id: nat, approve: bool, actor: string, reason: Option<Note>)
    requires Invariant(ok, w) && id < |w.rows| && w.rows[id].status == NeedsReview
    requires var v := HumanVerdict(w.rows[id], approve, actor, reason); v.Done? && ok(id, v.row)
    ensures Invariant(ok, Decided(w, id, approve, actor, reason))
  {
    var v := HumanVerdict(w.rows[id], approve, actor, reason);
    NobodyReviews(ok, w, id);
    RewriteKeeps(ok, w, id, v.row, w.outbox + Enqueued(v.next, id));
  }

  lemma DecideKeepsInv(ratio: Ratio, w: World, id: nat, approve: bool, actor: string, reason: Option<Note>)
    requires Inv(ratio, w) && id < |w.rows|
    ensures Inv(ratio, Decided(w, id, approve, actor, reason))
  {
    var ok := SoundIn(ratio, w.vendors, w.orders);
    HumanFollowsStatus(w.rows[id], approve, actor, reason);
    if w.rows[id].status == NeedsReview {
      assert ok(id, w.rows[id]);
      HumanKeepsSound(ratio, w.vendors, w.orders, id, w.rows[id], approve, actor, reason);
      ReviewKeeps(ok, w, id, approve, actor, reason);
    }
  }

  /** No task works on an invoice that waits for a human. */
  lemma NobodyReviews(ok: RowTest, w: World, id: nat)
    requires FlightsSound(ok, w) && id < |w.rows| && Wakes(w.rows[id].status).None?
    ensures Idle(w, id)
  {
    forall k | k in w.flights ensures w.flights[k].message.id != id {
      assert FlightSound(ok, w, w.flights[k]);
    }
  }

  lemma CommitKeepsInv(ratio: Ratio, w: World, worker: nat)
    requires Inv(ratio, w) && worker in w.flights
    ensures Inv(ratio, Finished(w, worker))
  {
    CommitKeeps(SoundIn(ratio, w.vendors, w.orders), w, worker);
    CommitWritesResult(SoundIn(ratio, w.vendors, w.orders), w, worker);
  }
}
