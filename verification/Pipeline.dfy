/**
 The pipeline as a transition system over the committed rows and the task queue.

 A task run is split in two: it reads committed data and computes its result
 (Begin), and later writes that result without looking again (Commit). In
 between, any other step may happen. Deliver is a run whose two halves are not
 interleaved with anything. No row is locked and no write is conditional, so a
 commit whose invoice has meanwhile changed overwrites the status and adds its
 child rows regardless.
 */
module Pipeline {
  import opened Options
  import opened VendorMatching
  import opened Records

  datatype Message = Message(kind: Kind, id: nat)

  /** A task run that has computed its result and not yet committed it. */
  datatype Flight = Flight(message: Message, before: Row, after: Row, next: Option<Kind>)

  /**
   `outbox` holds messages whose transaction is committed and whose `delay` call
   is still to come, `queue` those at the broker, `held` those a worker is
   processing, and `lost` those that ended in an exception or a crash.
   */
  datatype World = World(
    rows: seq<Row>,
    vendors: seq<Vendor>,
    orders: seq<PurchaseOrder>,
    outbox: multiset<Message>,
    queue: multiset<Message>,
    held: multiset<Message>,
    lost: multiset<Message>,
    flights: map<nat, Flight>)

  const EMPTY := World([], [], [], multiset{}, multiset{}, multiset{}, multiset{}, map[])

  datatype Step =
    | Arrive
    | Send(message: Message)
    | CrashBeforeSend(message: Message)
    | Begin(worker: nat, message: Message, input: Input)
    | Commit(worker: nat)
    | Abort(worker: nat)
    | Deliver(worker: nat, message: Message, input: Input)
    | Fail(message: Message)
    | Redeliver(message: Message)
    | Decide(id: nat, approve: bool, actor: string, reason: Option<Note>)
    | AddVendor(vendor: Vendor)
    | AddOrder(order: PurchaseOrder)

  /** Steps that the workers and the broker take on their own, with no outside event. */
  predicate Internal(s: Step) {
    s.Send? || s.CrashBeforeSend? || s.Begin? || s.Commit? || s.Abort? || s.Deliver? || s.Fail?
  }

  predicate Enabled(w: World, s: Step) {
    match s
    case Arrive => true
    case Send(m) => m in w.outbox
    case CrashBeforeSend(m) => m in w.outbox
    case Begin(k, m, _) => m in w.queue && k !in w.flights
    case Commit(k) => k in w.flights
    case Abort(k) => k in w.flights
    case Deliver(k, m, _) => m in w.queue && k !in w.flights
    case Fail(m) => m in w.queue
    case Redeliver(m) => true
    case Decide(id, _, _, _) => id < |w.rows|
    case AddVendor(_) => true
    case AddOrder(_) => true
  }

  function Enqueued(kind: Option<Kind>, id: nat): multiset<Message> {
    if kind.Some? then multiset{Message(kind.value, id)} else multiset{}
  }

  // ---- what a commit writes --------------------------------------------------------

  /** The child rows a task adds: those its result has beyond what it had read. */
  function Added<T>(before: seq<T>, after: seq<T>): seq<T> {
    if |before| <= |after| then after[|before|..] else []
  }

  /** The row after a blind write of the changes that lead from `before` to `after`. */
  function Overwritten(current: Row, before: Row, after: Row): Row {
    Row(
      after.status,
      if after.failureReason == before.failureReason then current.failureReason else after.failureReason,
      current.extractions + Added(before.extractions, after.extractions),
      current.matches + Added(before.matches, after.matches),
      current.validations + Added(before.validations, after.validations),
      current.audit + Added(before.audit, after.audit),
      current.exports + Added(before.exports, after.exports))
  }

  function Started(ratio: Ratio, w: World, worker: nat, m: Message, input: Input): World
    requires m in w.queue
  {
    var taken := w.(queue := w.queue - multiset{m});
    match Handle(ratio, w.vendors, w.orders, w.rows, m.kind, m.id, input)
    case Skipped => taken
    case Raised => taken.(lost := w.lost + multiset{m})
    case Done(row, next) =>
      taken.(held := w.held + multiset{m},
             flights := w.flights[worker := Flight(m, if m.id < |w.rows| then w.rows[m.id] else row, row, next)])
  }

  function Finished(w: World, worker: nat): World
    requires worker in w.flights
  {
    var f := w.flights[worker];
    var done := w.(held := w.held - multiset{f.message}, flights := w.flights - {worker});
    if f.message.id < |w.rows| then
      done.(rows := w.rows[f.message.id := Overwritten(w.rows[f.message.id], f.before, f.after)],
            outbox := w.outbox + Enqueued(f.next, f.message.id))
    else done
  }

  function Decided(w: World, id: nat, approve: bool, actor: string, reason: Option<Note>): World
    requires id < |w.rows|
  {
    match HumanVerdict(w.rows[id], approve, actor, reason)
    case Done(row, next) => w.(rows := w.rows[id := row], outbox := w.outbox + Enqueued(next, id))
    case _ => w
  }

  /** One step; a step that is not enabled changes nothing. */
  function Apply(ratio: Ratio, w: World, s: Step): World {
    if !Enabled(w, s) then w
    else
      match s
      case Arrive =>
        w.(rows := w.rows + [NEW_ROW], outbox := w.outbox + multiset{Message(ExtractInvoice, |w.rows|)})
      case Send(m) => w.(outbox := w.outbox - multiset{m}, queue := w.queue + multiset{m})
      case CrashBeforeSend(m) => w.(outbox := w.outbox - multiset{m}, lost := w.lost + multiset{m})
      case Begin(k, m, input) => Started(ratio, w, k, m, input)
      case Commit(k) => Finished(w, k)
      case Abort(k) =>
        var m := w.flights[k].message;
        w.(held := w.held - multiset{m}, lost := w.lost + multiset{m}, flights := w.flights - {k})
      case Deliver(k, m, input) =>
        var started := Started(ratio, w, k, m, input);
        if k in started.flights then Finished(started, k) else started
      case Fail(m) => w.(queue := w.queue - multiset{m}, lost := w.lost + multiset{m})
      case Redeliver(m) => w.(queue := w.queue + multiset{m})
      case Decide(id, approve, actor, reason) => Decided(w, id, approve, actor, reason)
      case AddVendor(v) => w.(vendors := w.vendors + [v])
      case AddOrder(o) => w.(orders := w.orders + [o])
  }

  /** The state after a run from the empty system. */
  function Exec(ratio: Ratio, run: seq<Step>): World
    decreases |run|, 1
  {
    if run == [] then EMPTY else AfterLast(ratio, run)
  }

  /** The last step of a run, taken from where the others lead. */
  function AfterLast(ratio: Ratio, run: seq<Step>): World
    requires run != []
    decreases |run|, 0
  {
    Apply(ratio, Exec(ratio, run[..|run| - 1]), run[|run| - 1])
  }

  lemma ExecLast(ratio: Ratio, front: seq<Step>, s: Step)
    ensures Exec(ratio, front + [s]) == Apply(ratio, Exec(ratio, front), s)
  {
    var run := front + [s];
    assert run[..|run| - 1] == front;
    assert AfterLast(ratio, run) == Apply(ratio, Exec(ratio, front), s);
  }

  // ---- starts on an invoice that is being worked on -----------------------------------

  /** No task in flight works on the invoice. */
  predicate Idle(w: World, id: nat) {
    forall k :: k in w.flights ==> w.flights[k].message.id != id
  }

  /** A task in flight has read an older row of the invoice than the committed one. */
  predicate Overtaken(w: World, id: nat) {
    exists k :: k in w.flights && w.flights[k].message.id == id && id < |w.rows| && w.flights[k].before != w.rows[id]
  }

  predicate Starts(w: World, s: Step) {
    (s.Begin? || s.Deliver?) && Enabled(w, s)
  }

  /** A task is started on an invoice that another task has in flight. */
  predicate BusyStart(w: World, s: Step) {
    Starts(w, s) && !Idle(w, s.message.id)
  }

  /** A task is started on an invoice that has moved on under another task. */
  predicate OvertakenStart(w: World, s: Step) {
    Starts(w, s) && Overtaken(w, s.message.id)
  }

  function BusyStarts(ratio: Ratio, run: seq<Step>): nat
    decreases |run|, 1
  {
    if run == [] then 0 else BusyStartsToLast(ratio, run)
  }

  function BusyStartsToLast(ratio: Ratio, run: seq<Step>): nat
    requires run != []
    decreases |run|, 0
  {
    var n := |run| - 1;
    BusyStarts(ratio, run[..n]) + (if BusyStart(Exec(ratio, run[..n]), run[n]) then 1 else 0)
  }

  function OvertakenStarts(ratio: Ratio, run: seq<Step>): nat
    decreases |run|, 1
  {
    if run == [] then 0 else OvertakenStartsToLast(ratio, run)
  }

  function OvertakenStartsToLast(ratio: Ratio, run: seq<Step>): nat
    requires run != []
    decreases |run|, 0
  {
    var n := |run| - 1;
    OvertakenStarts(ratio, run[..n]) + (if OvertakenStart(Exec(ratio, run[..n]), run[n]) then 1 else 0)
  }

  /** The last step of a run, counted. */
  lemma LastStart(ratio: Ratio, run: seq<Step>)
    requires run != []
    ensures var front, s := run[..|run| - 1], run[|run| - 1];
            var w := Exec(ratio, front);
            && BusyStarts(ratio, run) == BusyStarts(ratio, front) + (if BusyStart(w, s) then 1 else 0)
            && OvertakenStarts(ratio, run) == OvertakenStarts(ratio, front) + (if OvertakenStart(w, s) then 1 else 0)
  {
    assert BusyStarts(ratio, run) == BusyStartsToLast(ratio, run);
    assert OvertakenStarts(ratio, run) == OvertakenStartsToLast(ratio, run);
  }

  /** What a lock on the row would give: no task starts on an invoice that another has in flight. */
  predicate Undisturbed(ratio: Ratio, run: seq<Step>) {
    BusyStarts(ratio, run) == 0
  }

  /** No task starts on an invoice that has moved on under another task in flight. */
  predicate NeverOvertaken(ratio: Ratio, run: seq<Step>) {
    OvertakenStarts(ratio, run) == 0
  }

  // ---- two delivery regimes that give as much ---------------------------------------------

  datatype Regime = AtMostOnceDelivery | AtomicTasks

  /**
   With at-most-once delivery task runs interleave freely and no message is
   redelivered. With atomic tasks messages are duplicated and reordered freely
   and no task run is interleaved with another step.
   */
  predicate PermittedStep(regime: Regime, s: Step) {
    match regime
    case AtMostOnceDelivery => !s.Redeliver?
    case AtomicTasks => !s.Begin?
  }

  predicate Permitted(regime: Regime, run: seq<Step>) {
    forall i :: 0 <= i < |run| ==> PermittedStep(regime, run[i])
  }
}
