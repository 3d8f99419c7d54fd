/**
 Runs of the pipeline. A token is a message wherever it is: about to be sent,
 queued, being processed, or lost.
 */
module PipelineRuns {
  import opened Options
  import opened Lifecycle
  import opened VendorMatching
  import opened Records
  import opened RowInvariants
  import opened Pipeline
  import opened PipelineInvariants
  import opened PipelineFrames
  import opened PipelineSteps

  function Tokens(w: World): multiset<Message> {
    w.outbox + w.queue + w.held + w.lost
  }

  /** One if the invoice waits for exactly this task, else none. */
  function Expected(rows: seq<Row>, m: Message): nat {
    if m.id < |rows| && Wakes(rows[m.id].status) == Some(m.kind) then 1 else 0
  }

  /** Conservation: every invoice has exactly the token its status calls for, and no other. */
  ghost predicate ExactTokens(w: World) {
    forall m :: Tokens(w)[m] == Expected(w.rows, m)
  }

  /** No wake-up disappears: at least the token that the status calls for. */
  ghost predicate NoTokenMissing(w: World) {
    forall m :: Tokens(w)[m] >= Expected(w.rows, m)
  }

  // ---- tokens change hands --------------------------------------------------------------

  lemma SameTaskSameRank(a: Status, b: Status)
    requires Wakes(a).Some? && Wakes(a) == Wakes(b)
    ensures Rank(a) == Rank(b)
  {
  }

  lemma TokenMeansIdle(ok: RowTest, w: World, m: Message)
    requires FlightsSound(ok, w) && ExactTokens(w) && m in w.queue
    ensures m.id < |w.rows| && Wakes(w.rows[m.id].status) == Some(m.kind) && Idle(w, m.id)
  {
    assert Tokens(w)[m] == Expected(w.rows, m);
    forall k | k in w.flights ensures w.flights[k].message.id != m.id {
      var x := w.flights[k].message;
      assert FlightSound(ok, w, w.flights[k]);
      assert x in w.held;
      assert x == m ==> Tokens(w)[m] >= 2;
      assert x.id == m.id ==> x == m;
    }
  }

  /** One invoice changes status: its old token goes, its new token comes. */
  lemma HandOver(w: World, u: World, id: nat)
    requires ExactTokens(w) && id < |w.rows| && |u.rows| == |w.rows|
    requires forall i :: 0 <= i < |w.rows| && i != id ==> u.rows[i] == w.rows[i]
    requires Wakes(w.rows[id].status) != Wakes(u.rows[id].status) || Wakes(w.rows[id].status).None?
    requires Tokens(u) == Tokens(w) - Enqueued(Wakes(w.rows[id].status), id) + Enqueued(Wakes(u.rows[id].status), id)
    ensures ExactTokens(u)
  {
    var earlier, later := Wakes(w.rows[id].status), Wakes(u.rows[id].status);
    forall m ensures Tokens(u)[m] == Expected(u.rows, m) {
      assert Tokens(w)[m] == Expected(w.rows, m);
      if m.id == id {
        assert Enqueued(earlier, id)[m] == if earlier == Some(m.kind) then 1 else 0;
        assert Enqueued(later, id)[m] == if later == Some(m.kind) then 1 else 0;
      } else {
        assert Enqueued(earlier, id)[m] == Enqueued(later, id)[m] == 0;
      }
    }
  }

  lemma CommitKeepsTokens(ok: RowTest, w: World, worker: nat)
    requires FlightsSound(ok, w) && ExactTokens(w) && worker in w.flights
    ensures ExactTokens(Finished(w, worker))
  {
    var f := w.flights[worker];
    var u := Finished(w, worker);
    CommitWritesResult(ok, w, worker);
    assert FlightSound(ok, w, f);
    assert f.message in w.held;
    if Wakes(f.after.status).Some? && Wakes(f.after.status) == Wakes(f.before.status) {
      SameTaskSameRank(f.after.status, f.before.status);
    }
    assert Enqueued(Wakes(f.before.status), f.message.id) == multiset{f.message};
    HandOver(w, u, f.message.id);
  }

  lemma BeginKeepsTokens(ok: RowTest, ratio: Ratio, w: World, worker: nat, m: Message, input: Input)
    requires FlightsSound(ok, w) && ExactTokens(w) && m in w.queue && worker !in w.flights
    ensures ExactTokens(Started(ratio, w, worker, m, input))
  {
    TokenMeansIdle(ok, w, m);
    StageFollowsStatus(ratio, w.vendors, w.orders, w.rows, m.kind, m.id, input);
    var u := Started(ratio, w, worker, m, input);
    assert Tokens(u) == Tokens(w);
    forall x ensures Tokens(u)[x] == Expected(u.rows, x) {
      assert Tokens(w)[x] == Expected(w.rows, x);
    }
  }

  /** Steps that move a token and touch no row. */
  lemma MoveKeepsTokens(w: World, u: World)
    requires ExactTokens(w) && u.rows == w.rows && Tokens(u) == Tokens(w)
    ensures ExactTokens(u)
  {
    forall m ensures Tokens(u)[m] == Expected(u.rows, m) {
      assert Tokens(w)[m] == Expected(w.rows, m);
    }
  }

  lemma ArriveKeepsTokens(w: World, u: World)
    requires ExactTokens(w) && u.rows == w.rows + [NEW_ROW]
    requires Tokens(u) == Tokens(w) + multiset{Message(ExtractInvoice, |w.rows|)}
    ensures ExactTokens(u)
  {
    forall m ensures Tokens(u)[m] == Expected(u.rows, m) {
      assert Tokens(w)[m] == Expected(w.rows, m);
    }
  }

  lemma DecideKeepsTokens(w: World, id: nat, approve: bool, actor: string, reason: Option<Note>)
    requires ExactTokens(w) && id < |w.rows|
    ensures ExactTokens(Decided(w, id, approve, actor, reason))
  {
    HumanFollowsStatus(w.rows[id], approve, actor, reason);
    if HumanVerdict(w.rows[id], approve, actor, reason).Done? {
      HandOver(w, Decided(w, id, approve, actor, reason), id);
    }
  }

  // ---- every step keeps the invariant ---------------------------------------------------

  lemma VendorKeepsInv(ratio: Ratio, w: World, v: Vendor, u: World)
    requires Inv(ratio, w) && u == w.(vendors := w.vendors + [v])
    ensures Inv(ratio, u)
  {
    TablesKeepInv(ratio, w, [v], []);
    assert w.orders + [] == w.orders;
  }

  lemma OrderKeepsInv(ratio: Ratio, w: World, o: PurchaseOrder, u: World)
    requires Inv(ratio, w) && u == w.(orders := w.orders + [o])
    ensures Inv(ratio, u)
  {
    TablesKeepInv(ratio, w, [], [o]);
    assert w.vendors + [] == w.vendors;
  }

  lemma TablesStepKeepsInv(ratio: Ratio, w: World, s: Step)
    requires Inv(ratio, w) && (s.AddVendor? || s.AddOrder?)
    ensures Inv(ratio, Apply(ratio, w, s))
  {
    if s.AddVendor? {
      VendorKeepsInv(ratio, w, s.vendor, Apply(ratio, w, s));
    } else {
      OrderKeepsInv(ratio, w, s.order, Apply(ratio, w, s));
    }
  }

  lemma DeliverIs(ratio: Ratio, w: World, k: nat, m: Message, input: Input, started: World)
    requires m in w.queue && k !in w.flights && started == Started(ratio, w, k, m, input)
    ensures Apply(ratio, w, Deliver(k, m, input)) == if k in started.flights then Finished(started, k) else started
  {
  }

  lemma LandingKeepsInv(ratio: Ratio, started: World, k: nat, u: World)
    requires Inv(ratio, started)
    requires u == if k in started.flights then Finished(started, k) else started
    ensures Inv(ratio, u)
  {
    if k in started.flights {
      CommitKeepsInv(ratio, started, k);
    }
  }

  lemma DeliverKeepsInv(ratio: Ratio, w: World, k: nat, m: Message, input: Input, u: World)
    requires Inv(ratio, w) && m in w.queue && k !in w.flights && Idle(w, m.id)
    requires u == Apply(ratio, w, Deliver(k, m, input))
    ensures Inv(ratio, u)
  {
    var started := Started(ratio, w, k, m, input);
    BeginKeepsInv(ratio, w, k, m, input);
    DeliverIs(ratio, w, k, m, input, started);
    LandingKeepsInv(ratio, started, k, u);
  }

  lemma TaskKeepsInv(ratio: Ratio, w: World, s: Step)
    requires Inv(ratio, w) && Enabled(w, s) && !BusyStart(w, s)
    requires s.Begin? || s.Commit? || s.Abort? || s.Deliver?
    ensures Inv(ratio, Apply(ratio, w, s))
  {
    match s {
      case Begin(k, m, input) => BeginKeepsInv(ratio, w, k, m, input);
      case Commit(k) => CommitKeepsInv(ratio, w, k);
      case Abort(k) =>
        AbortKeeps(SoundIn(ratio, w.vendors, w.orders), w, k, w.lost + multiset{w.flights[k].message});
      case Deliver(k, m, input) => DeliverKeepsInv(ratio, w, k, m, input, Apply(ratio, w, s));
    }
  }

  lemma MessageKeepsInv(ratio: Ratio, w: World, s: Step)
    requires Inv(ratio, w) && (s.Send? || s.CrashBeforeSend? || s.Fail? || s.Redeliver?)
    ensures Inv(ratio, Apply(ratio, w, s))
  {
    var u := Apply(ratio, w, s);
    QueuesKeep(SoundIn(ratio, w.vendors, w.orders), w, u.outbox, u.queue, u.lost);
  }

  lemma StepKeepsInv(ratio: Ratio, w: World, s: Step)
    requires Inv(ratio, w) && !BusyStart(w, s)
    ensures Inv(ratio, Apply(ratio, w, s))
  {
    if !Enabled(w, s) {
      assert Apply(ratio, w, s) == w;
    } else if s.AddVendor? || s.AddOrder? {
      TablesStepKeepsInv(ratio, w, s);
    } else if s.Arrive? {
      ArriveKeepsInv(ratio, w, w.outbox + multiset{Message(ExtractInvoice, |w.rows|)});
    } else if s.Decide? {
      DecideKeepsInv(ratio, w, s.id, s.approve, s.actor, s.reason);
    } else if s.Begin? || s.Commit? || s.Abort? || s.Deliver? {
      TaskKeepsInv(ratio, w, s);
    } else {
      MessageKeepsInv(ratio, w, s);
    }
  }

  lemma EmptyIsFine(ratio: Ratio)
    ensures Inv(ratio, EMPTY) && ExactTokens(EMPTY)
  {
  }

  /** The invariant holds after every undisturbed run, however messages are lost, repeated and reordered. */
  lemma {:induction false} RunKeepsInv(ratio: Ratio, run: seq<Step>)
    requires Undisturbed(ratio, run)
    ensures Inv(ratio, Exec(ratio, run))
  {
    if run == [] {
      EmptyIsFine(ratio);
    } else {
      var n := |run| - 1;
      LastStart(ratio, run);
      RunKeepsInv(ratio, run[..n]);
      StepKeepsInv(ratio, Exec(ratio, run[..n]), run[n]);
      ExecFront(ratio, run);
    }
  }

  lemma ExecFront(ratio: Ratio, run: seq<Step>)
    requires run != []
    ensures Exec(ratio, run) == Apply(ratio, Exec(ratio, run[..|run| - 1]), run[|run| - 1])
  {
    assert Exec(ratio, run) == AfterLast(ratio, run);
  }

  // ---- at-most-once delivery conserves tokens -----------------------------------------------

  lemma DeliverKeepsTokens(ratio: Ratio, w: World, k: nat, m: Message, input: Input)
    requires Inv(ratio, w) && ExactTokens(w) && m in w.queue && k !in w.flights
    ensures ExactTokens(Apply(ratio, w, Deliver(k, m, input)))
  {
    TokenMeansIdle(SoundIn(ratio, w.vendors, w.orders), w, m);
    BeginKeepsTokens(SoundIn(ratio, w.vendors, w.orders), ratio, w, k, m, input);
    BeginKeepsInv(ratio, w, k, m, input);
    FinishKeepsTokens(ratio, Started(ratio, w, k, m, input), k);
  }

  lemma FinishKeepsTokens(ratio: Ratio, started: World, k: nat)
    requires Inv(ratio, started) && ExactTokens(started)
    ensures ExactTokens(if k in started.flights then Finished(started, k) else started)
  {
    if k in started.flights {
      CommitKeepsTokens(SoundIn(ratio, started.vendors, started.orders), started, k);
    }
  }

  lemma AbortKeepsTokens(ok: RowTest, ratio: Ratio, w: World, k: nat)
    requires FlightsSound(ok, w) && ExactTokens(w) && k in w.flights
    ensures ExactTokens(Apply(ratio, w, Abort(k)))
  {
    assert w.flights[k].message in w.held;
    MoveKeepsTokens(w, Apply(ratio, w, Abort(k)));
  }

  /** A step of the broker or a new table entry: one token may change hands, nothing else happens. */
  predicate OfBroker(s: Step) {
    s.Send? || s.CrashBeforeSend? || s.Fail? || s.AddVendor? || s.AddOrder?
  }

  lemma Passed(a: multiset<Message>, b: multiset<Message>, m: Message)
    requires m in a
    ensures (a - multiset{m}) + (b + multiset{m}) == a + b
  {
  }

  lemma BrokerMovesTokens(ratio: Ratio, w: World, s: Step)
    requires OfBroker(s) && Enabled(w, s)
    ensures var u := Apply(ratio, w, s);
            u.rows == w.rows && u.held == w.held && u.flights == w.flights && Tokens(u) == Tokens(w)
  {
    if s.Send? {
      Passed(w.outbox, w.queue, s.message);
    } else if s.CrashBeforeSend? {
      LostTokens(w.outbox, w.queue, w.held, w.lost, s.message);
    } else if s.Fail? {
      LostTokens(w.queue, w.outbox, w.held, w.lost, s.message);
      assert w.outbox + (w.queue - multiset{s.message}) == (w.queue - multiset{s.message}) + w.outbox;
      assert w.outbox + w.queue == w.queue + w.outbox;
    }
  }

  lemma LostTokens(a: multiset<Message>, b: multiset<Message>, c: multiset<Message>, lost: multiset<Message>, m: Message)
    requires m in a
    ensures (a - multiset{m}) + b + c + (lost + multiset{m}) == a + b + c + lost
  {
  }

  lemma TaskKeepsTokens(ratio: Ratio, w: World, s: Step)
    requires Inv(ratio, w) && ExactTokens(w) && Enabled(w, s)
    requires s.Begin? || s.Commit? || s.Abort? || s.Deliver?
    ensures ExactTokens(Apply(ratio, w, s))
  {
    var ok := SoundIn(ratio, w.vendors, w.orders);
    match s {
      case Begin(k, m, input) => BeginKeepsTokens(ok, ratio, w, k, m, input);
      case Commit(k) => CommitKeepsTokens(ok, w, k);
      case Abort(k) => AbortKeepsTokens(ok, ratio, w, k);
      case Deliver(k, m, input) => DeliverKeepsTokens(ratio, w, k, m, input);
    }
  }

  lemma StepKeepsTokens(ratio: Ratio, w: World, s: Step)
    requires Inv(ratio, w) && ExactTokens(w) && PermittedStep(AtMostOnceDelivery, s)
    ensures ExactTokens(Apply(ratio, w, s))
  {
    if !Enabled(w, s) {
      assert Apply(ratio, w, s) == w;
    } else if OfBroker(s) {
      BrokerMovesTokens(ratio, w, s);
      MoveKeepsTokens(w, Apply(ratio, w, s));
    } else if s.Arrive? {
      ArriveKeepsTokens(w, Apply(ratio, w, s));
    } else if s.Decide? {
      DecideKeepsTokens(w, s.id, s.approve, s.actor, s.reason);
    } else {
      TaskKeepsTokens(ratio, w, s);
    }
  }

  lemma StepKeepsNoFlights(ratio: Ratio, w: World, s: Step)
    requires w.flights == map[] && PermittedStep(AtomicTasks, s)
    ensures Apply(ratio, w, s).flights == map[]
  {
    if s.Deliver? && Enabled(w, s) {
      var started := Started(ratio, w, s.worker, s.message, s.input);
      assert started.flights - {s.worker} == map[];
    }
  }

  lemma TokensMeanNoBusyStart(ratio: Ratio, w: World, s: Step)
    requires Inv(ratio, w) && ExactTokens(w)
    ensures !BusyStart(w, s)
  {
    if Starts(w, s) {
      TokenMeansIdle(SoundIn(ratio, w.vendors, w.orders), w, s.message);
    }
  }

  lemma {:induction false} AtMostOnceKeepsTokens(ratio: Ratio, run: seq<Step>)
    requires Permitted(AtMostOnceDelivery, run)
    ensures Undisturbed(ratio, run) && Inv(ratio, Exec(ratio, run)) && ExactTokens(Exec(ratio, run))
  {
    if run == [] {
      EmptyIsFine(ratio);
    } else {
      var front, s := run[..|run| - 1], run[|run| - 1];
      assert forall i :: 0 <= i < |front| ==> front[i] == run[i];
      LastStart(ratio, run);
      AtMostOnceKeepsTokens(ratio, front);
      var w := Exec(ratio, front);
      TokensMeanNoBusyStart(ratio, w, s);
      StepKeepsInv(ratio, w, s);
      StepKeepsTokens(ratio, w, s);
      ExecFront(ratio, run);
    }
  }

  lemma {:induction false} AtomicTasksHaveNoFlights(ratio: Ratio, run: seq<Step>)
    requires Permitted(AtomicTasks, run)
    ensures Undisturbed(ratio, run) && Exec(ratio, run).flights == map[]
  {
    if run != [] {
      var front, s := run[..|run| - 1], run[|run| - 1];
      assert forall i :: 0 <= i < |front| ==> front[i] == run[i];
      LastStart(ratio, run);
      AtomicTasksHaveNoFlights(ratio, front);
      StepKeepsNoFlights(ratio, Exec(ratio, front), s);
      ExecFront(ratio, run);
    }
  }

  /** Either regime is enough for a run to be undisturbed. */
  lemma PermittedIsUndisturbed(ratio: Ratio, regime: Regime, run: seq<Step>)
    requires Permitted(regime, run)
    ensures Undisturbed(ratio, run)
  {
    match regime {
      case AtMostOnceDelivery => AtMostOnceKeepsTokens(ratio, run);
      case AtomicTasks => AtomicTasksHaveNoFlights(ratio, run);
    }
  }

  // ---- busy starts and overtaken starts -----------------------------------------------------------

  /** While the invariant holds, a task in flight has read the committed row. */
  lemma NobodyIsOvertaken(ok: RowTest, w: World, s: Step)
    requires FlightsSound(ok, w)
    ensures !OvertakenStart(w, s)
  {
    forall k | k in w.flights ensures w.flights[k].before == w.rows[w.flights[k].message.id] {
      assert FlightSound(ok, w, w.flights[k]);
    }
  }

  /** The first busy start of a run overtakes nobody: it takes two to get an overtaken start. */
  lemma {:induction false} FewerOvertakenStarts(ratio: Ratio, run: seq<Step>)
    ensures OvertakenStarts(ratio, run) == 0 || OvertakenStarts(ratio, run) < BusyStarts(ratio, run)
  {
    if run != [] {
      var n := |run| - 1;
      var w := Exec(ratio, run[..n]);
      LastStart(ratio, run);
      FewerOvertakenStarts(ratio, run[..n]);
      assert OvertakenStart(w, run[n]) ==> BusyStart(w, run[n]);
      if Undisturbed(ratio, run[..n]) {
        RunKeepsInv(ratio, run[..n]);
        NobodyIsOvertaken(SoundIn(ratio, w.vendors, w.orders), w, run[n]);
      }
    }
  }
}
