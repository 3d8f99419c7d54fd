/**
 No wake-up is ever lost silently: this holds of every run whatsoever, with
 messages redelivered and task runs interleaved.
 */
module WakeUps {
  import opened Options
  import opened Lifecycle
  import opened VendorMatching
  import opened Records
  import opened RowInvariants
  import opened Pipeline
  import opened PipelineRuns

  predicate Answers(w: World, f: Flight) {
    && f.message.id < |w.rows|
    && Wakes(f.before.status) == Some(f.message.kind)
    && f.next == Wakes(f.after.status)
    && Rank(f.after.status) < Rank(f.before.status)
    && !Transient(f.after.status)
  }

  predicate FlightsAnswer(w: World) {
    forall k :: k in w.flights ==> Answers(w, w.flights[k])
  }

  predicate AtRest(rows: seq<Row>) {
    forall i :: 0 <= i < |rows| ==> !Transient(rows[i].status)
  }

  ghost predicate Awake(w: World) {
    FlightsAnswer(w) && NoTokenMissing(w) && AtRest(w.rows)
  }

  /** Tokens of other tasks stay, and the invoice that moved on has its new one. */
  lemma TokensAfter(w: World, u: World, id: nat, used: Option<Kind>)
    requires NoTokenMissing(w) && id < |w.rows| && |u.rows| == |w.rows|
    requires forall i :: 0 <= i < |w.rows| && i != id ==> u.rows[i] == w.rows[i]
    requires forall m: Message :: Some(m.kind) != used || m.id != id ==> Tokens(u)[m] >= Tokens(w)[m]
    requires Wakes(u.rows[id].status).Some? ==>
               Wakes(u.rows[id].status) != used && Message(Wakes(u.rows[id].status).value, id) in Tokens(u)
    ensures NoTokenMissing(u)
  {
    forall m ensures Tokens(u)[m] >= Expected(u.rows, m) {
      assert Tokens(w)[m] >= Expected(w.rows, m);
      if m.id == id && Wakes(u.rows[id].status) == Some(m.kind) {
        assert m == Message(Wakes(u.rows[id].status).value, id);
      }
    }
  }

  lemma StartedStaysAwake(ratio: Ratio, w: World, k: nat, m: Message, input: Input)
    requires Awake(w) && m in w.queue && k !in w.flights
    ensures Awake(Started(ratio, w, k, m, input))
  {
    var u := Started(ratio, w, k, m, input);
    if m.id < |w.rows| {
      StageFollowsStatus(ratio, w.vendors, w.orders, w.rows, m.kind, m.id, input);
    }
    forall x ensures Tokens(u)[x] >= Expected(u.rows, x) {
      assert Tokens(w)[x] >= Expected(w.rows, x);
    }
    forall j | j in u.flights ensures Answers(u, u.flights[j]) {
      assert j != k ==> Answers(w, w.flights[j]);
    }
  }

  lemma FinishedStaysAwake(w: World, k: nat)
    requires Awake(w) && k in w.flights
    ensures Awake(Finished(w, k))
  {
    var f := w.flights[k];
    var u := Finished(w, k);
    assert Answers(w, f);
    if Wakes(f.after.status) == Some(f.message.kind) {
      SameTaskSameRank(f.after.status, f.before.status);
    }
    TokensAfter(w, u, f.message.id, Some(f.message.kind));
    forall j | j in u.flights ensures Answers(u, u.flights[j]) {
      assert Answers(w, w.flights[j]);
    }
  }

  lemma DecidedStaysAwake(w: World, id: nat, approve: bool, actor: string, reason: Option<Note>)
    requires Awake(w) && id < |w.rows|
    ensures Awake(Decided(w, id, approve, actor, reason))
  {
    HumanFollowsStatus(w.rows[id], approve, actor, reason);
    var u := Decided(w, id, approve, actor, reason);
    if HumanVerdict(w.rows[id], approve, actor, reason).Done? {
      TokensAfter(w, u, id, None);
    }
    forall j | j in u.flights ensures Answers(u, u.flights[j]) {
      assert Answers(w, w.flights[j]);
    }
  }

  lemma MoveStaysAwake(w: World, u: World)
    requires Awake(w) && Tokens(w) <= Tokens(u)
    requires u.rows == w.rows
    requires forall k :: k in u.flights ==> k in w.flights && u.flights[k] == w.flights[k]
    ensures Awake(u)
  {
    forall x ensures Tokens(u)[x] >= Expected(u.rows, x) {
      assert Tokens(w)[x] >= Expected(w.rows, x);
    }
    forall j | j in u.flights ensures Answers(u, u.flights[j]) {
      assert Answers(w, w.flights[j]);
    }
  }

  lemma ArriveStaysAwake(w: World, u: World)
    requires Awake(w) && u.rows == w.rows + [NEW_ROW] && u.flights == w.flights
    requires Tokens(u) == Tokens(w) + multiset{Message(ExtractInvoice, |w.rows|)}
    ensures Awake(u)
  {
    forall x ensures Tokens(u)[x] >= Expected(u.rows, x) {
      assert Tokens(w)[x] >= Expected(w.rows, x);
    }
    forall j | j in u.flights ensures Answers(u, u.flights[j]) {
      assert Answers(w, w.flights[j]);
    }
  }

  lemma DeliveredStaysAwake(ratio: Ratio, w: World, k: nat, m: Message, input: Input)
    requires Awake(w) && m in w.queue && k !in w.flights
    ensures Awake(Apply(ratio, w, Deliver(k, m, input)))
  {
    StartedStaysAwake(ratio, w, k, m, input);
    var started := Started(ratio, w, k, m, input);
    if k in started.flights {
      FinishedStaysAwake(started, k);
    }
  }

  lemma AbortStaysAwake(ratio: Ratio, w: World, k: nat)
    requires Awake(w) && k in w.flights
    ensures Awake(Apply(ratio, w, Abort(k)))
  {
    MoveStaysAwake(w, Apply(ratio, w, Abort(k)));
  }

  lemma StepStaysAwake(ratio: Ratio, w: World, s: Step)
    requires Awake(w)
    ensures Awake(Apply(ratio, w, s))
  {
    if !Enabled(w, s) {
      assert Apply(ratio, w, s) == w;
    } else if OfBroker(s) {
      BrokerMovesTokens(ratio, w, s);
      MoveStaysAwake(w, Apply(ratio, w, s));
    } else {
      EventStaysAwake(ratio, w, s);
    }
  }

  lemma EventStaysAwake(ratio: Ratio, w: World, s: Step)
    requires Awake(w) && Enabled(w, s) && !OfBroker(s)
    ensures Awake(Apply(ratio, w, s))
  {
    match s {
      case Arrive => ArriveStaysAwake(w, Apply(ratio, w, s));
      case Begin(k, m, input) => StartedStaysAwake(ratio, w, k, m, input);
      case Commit(k) => FinishedStaysAwake(w, k);
      case Abort(k) => AbortStaysAwake(ratio, w, k);
      case Deliver(k, m, input) => DeliveredStaysAwake(ratio, w, k, m, input);
      case Decide(id, approve, actor, reason) => DecidedStaysAwake(w, id, approve, actor, reason);
      case Redeliver(m) => MoveStaysAwake(w, Apply(ratio, w, s));
    }
  }

  /**
   In every run at all, no transient status is committed, and an invoice that waits
   for a task has that task's message in the outbox, in the queue, in a worker's
   hands, or among those lost to an exception or a crash.
   */
  lemma {:induction false} NoWakeUpMissing(ratio: Ratio, run: seq<Step>)
    ensures Awake(Exec(ratio, run))
  {
    if run != [] {
      NoWakeUpMissing(ratio, run[..|run| - 1]);
      StepStaysAwake(ratio, Exec(ratio, run[..|run| - 1]), run[|run| - 1]);
    }
  }

  /** A status in which nothing more happens without a human. */
  predicate Settled(status: Status) {
    status in {NeedsReview, Rejected, Exported, Failed}
  }

  lemma WaitingOrSettled(status: Status)
    ensures Wakes(status).None? <==> Settled(status) || Transient(status)
  {
  }
}
