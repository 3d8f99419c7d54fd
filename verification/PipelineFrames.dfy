/** How the steps of the pipeline act on an invariant, whatever is asked of a single row. */
module PipelineFrames {
  import opened Records
  import opened Pipeline
  import opened PipelineInvariants

  lemma FlightSoundElsewhere(ok: RowTest, w: World, u: World, f: Flight)
    requires FlightSound(ok, w, f)
    requires f.message.id < |u.rows| && u.rows[f.message.id] == w.rows[f.message.id]
    ensures FlightSound(ok, u, f)
  {
  }

  // ---- a task starts -------------------------------------------------------------------

  function WithFlight(w: World, worker: nat, f: Flight, queue: multiset<Message>): World {
    w.(queue := queue, held := w.held + multiset{f.message}, flights := w.flights[worker := f])
  }

  lemma StartKeepsFlights(ok: RowTest, w: World, worker: nat, f: Flight, queue: multiset<Message>)
    requires FlightsSound(ok, w) && FlightSound(ok, w, f)
    requires worker !in w.flights && Idle(w, f.message.id)
    ensures FlightsSound(ok, WithFlight(w, worker, f, queue))
  {
    var u := WithFlight(w, worker, f, queue);
    forall k | k in u.flights ensures FlightSound(ok, u, u.flights[k]) {
      FlightSoundElsewhere(ok, w, u, if k == worker then f else w.flights[k]);
    }
  }

  lemma StartKeeps(ok: RowTest, w: World, worker: nat, f: Flight, queue: multiset<Message>)
    requires Invariant(ok, w) && FlightSound(ok, w, f)
    requires worker !in w.flights && Idle(w, f.message.id)
    ensures Invariant(ok, WithFlight(w, worker, f, queue))
  {
    StartKeepsFlights(ok, w, worker, f, queue);
  }

  // ---- a task commits --------------------------------------------------------------------

  lemma AppendedBack<T>(before: seq<T>, after: seq<T>)
    requires IsPrefix(before, after)
    ensures before + Added(before, after) == after
  {
  }

  /** When nobody else has written the row, the blind write produces the intended result. */
  lemma UndisturbedWrite(before: Row, after: Row)
    requires Continues(before, after)
    ensures Overwritten(before, before, after) == after
  {
    AppendedBack(before.extractions, after.extractions);
    AppendedBack(before.matches, after.matches);
    AppendedBack(before.validations, after.validations);
    AppendedBack(before.audit, after.audit);
    AppendedBack(before.exports, after.exports);
  }

  lemma CommitWritesResult(ok: RowTest, w: World, worker: nat)
    requires FlightsSound(ok, w) && worker in w.flights
    ensures var f := w.flights[worker];
            && f.message.id < |w.rows|
            && Finished(w, worker)
               == w.(held := w.held - multiset{f.message}, flights := w.flights - {worker},
                     rows := w.rows[f.message.id := f.after],
                     outbox := w.outbox + Enqueued(f.next, f.message.id))
  {
    var f := w.flights[worker];
    assert FlightSound(ok, w, f);
    UndisturbedWrite(f.before, f.after);
  }

  lemma LandingKeepsFlights(ok: RowTest, w: World, worker: nat, u: World)
    requires FlightsSound(ok, w) && worker in w.flights
    requires u.flights == w.flights - {worker} && u.held == w.held - multiset{w.flights[worker].message}
    requires |u.rows| == |w.rows|
    requires forall i :: 0 <= i < |w.rows| && i != w.flights[worker].message.id ==> u.rows[i] == w.rows[i]
    ensures FlightsSound(ok, u)
  {
    forall k | k in u.flights ensures FlightSound(ok, u, u.flights[k]) && u.flights[k].message in u.held {
      assert FlightSound(ok, w, w.flights[k]);
      assert w.flights[k].message.id != w.flights[worker].message.id;
      FlightSoundElsewhere(ok, w, u, w.flights[k]);
    }
  }

  lemma CommitKeeps(ok: RowTest, w: World, worker: nat)
    requires Invariant(ok, w) && worker in w.flights
    ensures Invariant(ok, Finished(w, worker))
  {
    CommitWritesResult(ok, w, worker);
    LandingKeepsFlights(ok, w, worker, Finished(w, worker));
    assert FlightSound(ok, w, w.flights[worker]);
  }

  lemma AbortKeeps(ok: RowTest, w: World, worker: nat, lost: multiset<Message>)
    requires Invariant(ok, w) && worker in w.flights
    ensures Invariant(ok, w.(held := w.held - multiset{w.flights[worker].message}, lost := lost,
                             flights := w.flights - {worker}))
  {
    LandingKeepsFlights(ok, w, worker, w.(held := w.held - multiset{w.flights[worker].message}, lost := lost,
                                          flights := w.flights - {worker}));
  }

  // ---- the other steps ---------------------------------------------------------------------

  /** Moving messages about touches no row. */
  lemma QueuesKeep(ok: RowTest, w: World, outbox: multiset<Message>, queue: multiset<Message>, lost: multiset<Message>)
    requires Invariant(ok, w)
    ensures Invariant(ok, w.(outbox := outbox, queue := queue, lost := lost))
  {
    var u := w.(outbox := outbox, queue := queue, lost := lost);
    forall k | k in u.flights ensures FlightSound(ok, u, u.flights[k]) {
      FlightSoundElsewhere(ok, w, u, w.flights[k]);
    }
  }

  lemma ArriveKeeps(ok: RowTest, w: World, outbox: multiset<Message>)
    requires Invariant(ok, w) && ok(|w.rows|, NEW_ROW)
    ensures Invariant(ok, w.(rows := w.rows + [NEW_ROW], outbox := outbox))
  {
    var u := w.(rows := w.rows + [NEW_ROW], outbox := outbox);
    forall k | k in u.flights ensures FlightSound(ok, u, u.flights[k]) {
      assert FlightSound(ok, w, w.flights[k]);
      FlightSoundElsewhere(ok, w, u, w.flights[k]);
    }
  }

  lemma TablesKeep(ok: RowTest, wider: RowTest, w: World, v: seq<Vendor>, o: seq<PurchaseOrder>)
    requires Invariant(ok, w)
    requires forall id, row :: ok(id, row) ==> wider(id, row)
    ensures Invariant(wider, w.(vendors := v, orders := o))
  {
    var u := w.(vendors := v, orders := o);
    forall k | k in u.flights ensures FlightSound(wider, u, u.flights[k]) {
      assert FlightSound(ok, w, w.flights[k]);
    }
  }

  /** A new row for an idle invoice. */
  lemma RewriteKeeps(ok: RowTest, w: World, id: nat, row: Row, outbox: multiset<Message>)
    requires Invariant(ok, w) && id < |w.rows| && Idle(w, id) && ok(id, row)
    ensures Invariant(ok, w.(rows := w.rows[id := row], outbox := outbox))
  {
    var u := w.(rows := w.rows[id := row], outbox := outbox);
    forall k | k in u.flights ensures FlightSound(ok, u, u.flights[k]) {
      assert FlightSound(ok, w, w.flights[k]);
      FlightSoundElsewhere(ok, w, u, w.flights[k]);
    }
  }
}
