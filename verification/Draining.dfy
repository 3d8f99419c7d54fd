/** Left to itself the pipeline stops, after a number of steps known in advance. */
module Draining {
  import opened Options
  import opened Lifecycle
  import opened VendorMatching
  import opened Records
  import opened Pipeline
  import opened PipelineRuns
  import opened WakeUps

  // ---- messages in hand --------------------------------------------------------------

  function Carriers(flights: map<nat, Flight>, m: Message): set<nat> {
    set k | k in flights && flights[k].message == m
  }

  /** The messages in the workers' hands are those of the tasks in flight, copy by copy. */
  ghost predicate Carried(w: World) {
    forall m :: |Carriers(w.flights, m)| == w.held[m]
  }

  lemma StartedMoves(ratio: Ratio, w: World, k: nat, m: Message, input: Input)
    requires m in w.queue && k !in w.flights
    ensures var u := Started(ratio, w, k, m, input);
            && u.outbox == w.outbox && u.queue == w.queue - multiset{m}
            && if k in u.flights then
                 u.flights[k].message == m && u.flights == w.flights[k := u.flights[k]] && u.held == w.held + multiset{m}
               else
                 u.flights == w.flights && u.held == w.held
  {
  }

  lemma TakenCarried(w: World, k: nat, f: Flight, u: World)
    requires Carried(w) && k !in w.flights
    requires u.flights == w.flights[k := f] && u.held == w.held + multiset{f.message}
    ensures Carried(u)
  {
    forall x ensures |Carriers(u.flights, x)| == u.held[x] {
      OneMoreCarrier(w.flights, k, f, x);
    }
  }

  lemma OneMoreCarrier(flights: map<nat, Flight>, k: nat, f: Flight, x: Message)
    requires k !in flights
    ensures |Carriers(flights[k := f], x)| == |Carriers(flights, x)| + if x == f.message then 1 else 0
  {
    var before, after := Carriers(flights, x), Carriers(flights[k := f], x);
    if x == f.message {
      assert after == before + {k};
    } else {
      assert after == before;
    }
  }

  lemma StartedCarried(ratio: Ratio, w: World, k: nat, m: Message, input: Input)
    requires Carried(w) && m in w.queue && k !in w.flights
    ensures Carried(Started(ratio, w, k, m, input))
  {
    var u := Started(ratio, w, k, m, input);
    StartedMoves(ratio, w, k, m, input);
    if k in u.flights {
      TakenCarried(w, k, u.flights[k], u);
    } else {
      assert forall x :: Carriers(u.flights, x) == Carriers(w.flights, x);
    }
  }

  lemma LandedCarried(w: World, k: nat, u: World)
    requires Carried(w) && k in w.flights
    requires u.held == w.held - multiset{w.flights[k].message} && u.flights == w.flights - {k}
    ensures w.flights[k].message in w.held
    ensures Carried(u)
  {
    var m := w.flights[k].message;
    assert k in Carriers(w.flights, m);
    forall x ensures |Carriers(u.flights, x)| == u.held[x] {
      assert Carriers(u.flights, x) == if x == m then Carriers(w.flights, x) - {k} else Carriers(w.flights, x);
    }
  }

  lemma FinishedMoves(w: World, k: nat)
    requires k in w.flights
    ensures Finished(w, k).held == w.held - multiset{w.flights[k].message}
    ensures Finished(w, k).flights == w.flights - {k}
  {
  }

  lemma HandsUntouched(ratio: Ratio, w: World, s: Step)
    requires !s.Begin? && !s.Commit? && !s.Abort? && !s.Deliver?
    ensures Apply(ratio, w, s).held == w.held && Apply(ratio, w, s).flights == w.flights
  {
    if !Enabled(w, s) {
      assert Apply(ratio, w, s) == w;
    } else if OfBroker(s) {
      BrokerMovesTokens(ratio, w, s);
    } else if s.Decide? {
      DecisionLeavesHands(w, s.id, s.approve, s.actor, s.reason);
    }
  }

  lemma DecisionLeavesHands(w: World, id: nat, approve: bool, actor: string, reason: Option<Note>)
    requires id < |w.rows|
    ensures Decided(w, id, approve, actor, reason).held == w.held
    ensures Decided(w, id, approve, actor, reason).flights == w.flights
  {
  }

  lemma DeliveredCarried(ratio: Ratio, w: World, k: nat, m: Message, input: Input, started: World)
    requires Carried(w) && m in w.queue && k !in w.flights && started == Started(ratio, w, k, m, input)
    ensures Carried(Apply(ratio, w, Deliver(k, m, input)))
  {
    StartedCarried(ratio, w, k, m, input);
    DeliverIs(ratio, w, k, m, input, started);
    if k in started.flights {
      FinishedMoves(started, k);
      LandedCarried(started, k, Finished(started, k));
    }
  }

  lemma StepCarried(ratio: Ratio, w: World, s: Step)
    requires Carried(w)
    ensures Carried(Apply(ratio, w, s))
  {
    if !Enabled(w, s) {
      assert Apply(ratio, w, s) == w;
    } else if s.Begin? {
      StartedCarried(ratio, w, s.worker, s.message, s.input);
    } else if s.Commit? {
      FinishedMoves(w, s.worker);
      LandedCarried(w, s.worker, Finished(w, s.worker));
    } else if s.Abort? {
      LandedCarried(w, s.worker, Apply(ratio, w, s));
    } else if s.Deliver? {
      DeliveredCarried(ratio, w, s.worker, s.message, s.input, Started(ratio, w, s.worker, s.message, s.input));
    } else {
      HandsUntouched(ratio, w, s);
    }
  }

  lemma {:induction false} RunCarried(ratio: Ratio, run: seq<Step>)
    ensures Carried(Exec(ratio, run))
  {
    if run != [] {
      RunCarried(ratio, run[..|run| - 1]);
      StepCarried(ratio, Exec(ratio, run[..|run| - 1]), run[|run| - 1]);
      ExecFront(ratio, run);
    }
  }

  // ---- a bound on what is left to do -----------------------------------------------------

  /** How many tasks an invoice may still go through, counting this one. */
  function Length(kind: Kind): nat {
    match kind
    case ExtractInvoice => 5
    case MatchInvoice => 4
    case ValidateInvoice => 3
    case ApproveInvoice => 2
    case ExportInvoice => 1
  }

  lemma NextIsShorter(before: Status, after: Status)
    requires Wakes(before).Some? && Wakes(after).Some? && Rank(after) < Rank(before)
    ensures Length(Wakes(after).value) < Length(Wakes(before).value)
  {
  }

  /** The lengths of all messages, added up. */
  ghost function Ahead(s: multiset<Message>): nat
    decreases |s|
  {
    if s == multiset{} then 0
    else
      var m :| m in s;
      RemoveOneMessage(s, m);
      Length(m.kind) + Ahead(s - multiset{m})
  }

  lemma RemoveOneMessage(s: multiset<Message>, m: Message)
    requires m in s
    ensures |s - multiset{m}| == |s| - 1
  {
    assert s == s - multiset{m} + multiset{m};
  }

  /** The sum does not depend on the order in which the messages are taken. */
  lemma {:induction false} AheadWithout(s: multiset<Message>, m: Message)
    requires m in s
    ensures Ahead(s) == Length(m.kind) + Ahead(s - multiset{m})
    decreases |s|
  {
    var x :| m in s && x in s && Ahead(s) == Length(x.kind) + Ahead(s - multiset{x});
    if x != m {
      var r := s - multiset{x};
      RemoveOneMessage(s, x);
      RemoveOneMessage(s, m);
      AheadWithout(r, m);
      AheadWithout(s - multiset{m}, x);
      assert r - multiset{m} == s - multiset{m} - multiset{x};
    }
  }

  lemma AheadWith(s: multiset<Message>, m: Message)
    ensures Ahead(s + multiset{m}) == Length(m.kind) + Ahead(s)
  {
    AheadWithout(s + multiset{m}, m);
    assert s + multiset{m} - multiset{m} == s;
  }

  /** A bound on the number of internal steps still possible. */
  ghost function Budget(w: World): nat {
    3 * (Ahead(w.outbox) + Ahead(w.queue) + Ahead(w.held)) + 2 * |w.outbox| + |w.queue|
  }

  lemma StartedCosts(ratio: Ratio, w: World, k: nat, m: Message, input: Input)
    requires m in w.queue && k !in w.flights
    ensures Budget(Started(ratio, w, k, m, input)) < Budget(w)
  {
    StartedMoves(ratio, w, k, m, input);
    RemoveOneMessage(w.queue, m);
    AheadWithout(w.queue, m);
    AheadWith(w.held, m);
  }

  lemma HandingOnCosts(held: multiset<Message>, outbox: multiset<Message>, m: Message, next: Option<Kind>)
    requires m in held && (next.Some? ==> Length(next.value) < Length(m.kind))
    ensures 3 * Ahead(held - multiset{m}) + 3 * Ahead(outbox + Enqueued(next, m.id)) + 2 * |outbox + Enqueued(next, m.id)|
            < 3 * Ahead(held) + 3 * Ahead(outbox) + 2 * |outbox|
  {
    AheadWithout(held, m);
    if next.Some? {
      AheadWith(outbox, Message(next.value, m.id));
    } else {
      assert outbox + Enqueued(next, m.id) == outbox;
    }
  }

  lemma FinishedCosts(w: World, k: nat)
    requires FlightsAnswer(w) && Carried(w) && k in w.flights
    ensures Budget(Finished(w, k)) < Budget(w)
  {
    var f := w.flights[k];
    assert Answers(w, f);
    FinishedMoves(w, k);
    LandedCarried(w, k, Finished(w, k));
    if f.next.Some? {
      NextIsShorter(f.before.status, f.after.status);
    }
    HandingOnCosts(w.held, w.outbox, f.message, f.next);
  }

  lemma AbortCosts(ratio: Ratio, w: World, k: nat)
    requires Carried(w) && k in w.flights
    ensures Budget(Apply(ratio, w, Abort(k))) < Budget(w)
  {
    LandedCarried(w, k, Apply(ratio, w, Abort(k)));
    AheadWithout(w.held, w.flights[k].message);
  }

  lemma DeliverCosts(ratio: Ratio, w: World, k: nat, m: Message, input: Input, started: World)
    requires Awake(w) && Carried(w) && m in w.queue && k !in w.flights
    requires started == Started(ratio, w, k, m, input)
    ensures Budget(Apply(ratio, w, Deliver(k, m, input))) < Budget(w)
  {
    StartedCosts(ratio, w, k, m, input);
    StartedCarried(ratio, w, k, m, input);
    StartedStaysAwake(ratio, w, k, m, input);
    DeliverIs(ratio, w, k, m, input, started);
    if k in started.flights {
      FinishedCosts(started, k);
    }
  }

  lemma BrokerCosts(ratio: Ratio, w: World, s: Step)
    requires Enabled(w, s) && (s.Send? || s.CrashBeforeSend? || s.Fail?)
    ensures Budget(Apply(ratio, w, s)) < Budget(w)
  {
    if s.Fail? {
      RemoveOneMessage(w.queue, s.message);
      AheadWithout(w.queue, s.message);
    } else {
      RemoveOneMessage(w.outbox, s.message);
      AheadWithout(w.outbox, s.message);
      AheadWith(w.queue, s.message);
    }
  }

  /** Every step the system takes on its own uses up part of the budget. */
  lemma InternalStepCosts(ratio: Ratio, w: World, s: Step)
    requires Awake(w) && Carried(w) && Internal(s) && Enabled(w, s)
    ensures Budget(Apply(ratio, w, s)) < Budget(w)
  {
    if s.Begin? {
      StartedCosts(ratio, w, s.worker, s.message, s.input);
    } else if s.Commit? {
      FinishedCosts(w, s.worker);
    } else if s.Abort? {
      AbortCosts(ratio, w, s.worker);
    } else if s.Deliver? {
      DeliverCosts(ratio, w, s.worker, s.message, s.input, Started(ratio, w, s.worker, s.message, s.input));
    } else {
      BrokerCosts(ratio, w, s);
    }
  }

  /** A run of internal steps, each of which is enabled when it is taken. */
  predicate Drain(ratio: Ratio, w: World, run: seq<Step>)
    decreases |run|
  {
    run == [] || (Internal(run[0]) && Enabled(w, run[0]) && Drain(ratio, Apply(ratio, w, run[0]), run[1..]))
  }

  lemma {:induction false} DrainIsBounded(ratio: Ratio, w: World, run: seq<Step>)
    requires Awake(w) && Carried(w) && Drain(ratio, w, run)
    ensures |run| <= Budget(w)
    decreases |run|
  {
    if run != [] {
      InternalStepCosts(ratio, w, run[0]);
      StepStaysAwake(ratio, w, run[0]);
      StepCarried(ratio, w, run[0]);
      DrainIsBounded(ratio, Apply(ratio, w, run[0]), run[1..]);
    }
  }

  // ---- nothing left to do --------------------------------------------------------------------

  /** Nothing is left to do for the workers and the broker. */
  ghost predicate Quiet(w: World) {
    forall s :: Internal(s) ==> !Enabled(w, s)
  }

  lemma FreeNumber(used: set<nat>) returns (k: nat)
    ensures forall i :: i in used ==> i < k
  {
    if used == {} {
      k := 0;
    } else {
      var x :| x in used;
      var rest := FreeNumber(used - {x});
      k := if rest > x then rest else x + 1;
      assert forall i :: i in used ==> i == x || i in used - {x};
    }
  }

  lemma QuietMeansEmpty(w: World)
    requires Carried(w) && Quiet(w)
    ensures w.outbox == multiset{} && w.queue == multiset{} && w.held == multiset{} && w.flights == map[]
  {
    var k := FreeNumber(w.flights.Keys);
    var input := Input("", None, [], 0, "");
    forall m ensures m !in w.outbox && m !in w.queue {
      assert !Enabled(w, Send(m)) && !Enabled(w, Deliver(k, m, input));
    }
    forall j: nat ensures j !in w.flights {
      assert !Enabled(w, Commit(j));
    }
    assert w.flights == map[];
    forall m ensures m !in w.held {
      assert Carriers(w.flights, m) == {};
    }
  }
}
