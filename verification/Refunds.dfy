/**
 refundOrderPayment as a state machine whose steps are single SQL statements of concurrent transactions: the refund
 row, the order status and the notification outbox row of one refund are written in one transaction.

 Two switches tell which of the two guards against refunding twice is working: the idempotency ledger, and the
 unique index on transactions.transaction_id. Amounts are integers in minor units.
 */
module Refunds {
  import opened Prelude
  import Ledger

  datatype Transaction = Transaction(key: string, refund: bool, order: nat, amount: nat, reason: string)

  datatype Notice = Notice(key: string, order: nat)

  datatype OrderStatus = Open | Refunded

  datatype Op = Refund(order: nat, amount: nat, reason: string)

  datatype Reply = Row(row: Transaction) | NoRow

  datatype Lock =
    | KeyRow(key: string)
    | Advisory(order: nat, key: string)
    | OrderRow(order: nat)
    | TransactionEntry(key: string)   // entry of the unique index on transaction_id
    | NoticeEntry(key: string)        // entry of the unique index of the outbox

  datatype Pc =
    | Claiming | TakeAdvisory | FindOrder | InsertTransaction | ReadTransaction | UpdateOrder | InsertNotice
    | Finalizing(reply: Reply) | Committing | Over

  /** `key` is the caller's key, or the one derived from order, amount and reason. */
  datatype Worker = Worker(op: Op, key: string, pc: Pc, locks: set<Lock>, row: Option<Transaction>, closes: bool,
                           notice: Option<Notice>)

  datatype Tables = Tables(orders: map<nat, OrderStatus>, transactions: seq<Transaction>, outbox: seq<Notice>)

  datatype Guards = Guards(ledger: bool, index: bool)

  datatype State = State(guards: Guards, tables: Tables, ledger: Ledger.State<string, Op, Reply>, workers: map<nat, Worker>)

  datatype Action =
    | Begin(id: nat, op: Op, key: string)
    | Claim(id: nat)
    | Read(id: nat)
    | Body(id: nat)
    | Finalize(id: nat)
    | Commit(id: nat)
    | Fail(id: nat)
    | Crash(id: nat)
    | Stamp(id: nat)
    | ChangeOrder(order: nat, status: OrderStatus)     // other parts of the platform: nobody reopens a refunded order
    | AddTransaction(row: Transaction)                 // a payment, payout, ..: never a refund

  predicate InBody(pc: Pc) { !pc.Claiming? && !pc.Finalizing? && !pc.Committing? && !pc.Over? }

  predicate KeyTaken(t: Tables, key: string) { exists r | r in t.transactions :: r.key == key }

  predicate Noticed(t: Tables, key: string) { exists n | n in t.outbox :: n.key == key }

  /** The INSERT of the refund row finds its transaction id in use. */
  predicate Conflicts(g: Guards, t: Tables, w: Worker) { g.index && KeyTaken(t, w.key) }

  function Needs(g: Guards, t: Tables, w: Worker): set<Lock> {
    match w.pc
    case TakeAdvisory => {Advisory(w.op.order, w.key)}
    case FindOrder | UpdateOrder => if w.op.order in t.orders then {OrderRow(w.op.order)} else {}
    case InsertTransaction => if g.index && !KeyTaken(t, w.key) then {TransactionEntry(w.key)} else {}
    case InsertNotice => if Noticed(t, w.key) then {} else {NoticeEntry(w.key)}
    case _ => {}
  }

  /** The order does not exist: the code throws, and the transaction can only fail. */
  predicate Throws(t: Tables, w: Worker) { w.pc.FindOrder? && w.op.order !in t.orders }

  predicate CanExecute(t: Tables, w: Worker) { InBody(w.pc) && !Throws(t, w) }

  function RefundRow(w: Worker): Transaction { Transaction(w.key, true, w.op.order, w.op.amount, w.op.reason) }

  ghost function Lookup(t: Tables, key: string): Reply {
    if KeyTaken(t, key) then var r :| r in t.transactions && r.key == key; Row(r) else NoRow
  }

  ghost function Execute(g: Guards, t: Tables, w: Worker): Worker
    requires CanExecute(t, w)
  {
    var v := w.(locks := w.locks + Needs(g, t, w));
    match w.pc
    case TakeAdvisory => v.(pc := FindOrder)
    case FindOrder => v.(pc := InsertTransaction)
    case InsertTransaction =>
      if Conflicts(g, t, w) then v.(pc := ReadTransaction) else v.(row := Some(RefundRow(w)), pc := UpdateOrder)
    case ReadTransaction => v.(pc := Finalizing(Lookup(t, w.key)))
    case UpdateOrder => v.(closes := w.op.order in t.orders && !t.orders[w.op.order].Refunded?, pc := InsertNotice)
    case InsertNotice =>
      v.(notice := if Noticed(t, w.key) then None else Some(Notice(w.key, w.op.order)),
         pc := Finalizing(Row(RefundRow(w))))
  }

  function Cleared(w: Worker): Worker { Worker(w.op, w.key, Over, {}, None, false, None) }

  function Appended<T>(s: seq<T>, x: Option<T>): seq<T> { if x.Some? then s + [x.value] else s }

  function Committed(t: Tables, w: Worker): Tables {
    Tables(if w.closes then t.orders[w.op.order := Refunded] else t.orders,
           Appended(t.transactions, w.row), Appended(t.outbox, w.notice))
  }

  function OnLedger(s: State, a: Action): Option<Ledger.Action<string, Op, Reply>> {
    match a
    case Begin(id, op, key) => Some(Ledger.Begin(id, if s.guards.ledger then Some(key) else None, op))
    case Claim(id) => Some(Ledger.Claim(id))
    case Read(id) => Some(Ledger.Read(id))
    case Finalize(id) =>
      if id in s.workers && s.workers[id].pc.Finalizing? then Some(Ledger.Finalize(id, s.workers[id].pc.reply)) else None
    case Commit(id) => Some(Ledger.Commit(id))
    case Fail(id) => Some(Ledger.Fail(id))
    case Crash(id) => Some(Ledger.Crash(id))
    case Stamp(id) => Some(Ledger.Stamp(id))
    case _ => None
  }

  ghost predicate FreeOf(s: State, id: nat, locks: set<Lock>) {
    forall j | j in s.workers && j != id :: s.workers[j].locks !! locks
  }

  ghost predicate Enabled(s: State, a: Action) {
    && (OnLedger(s, a).Some? ==> Ledger.Enabled(s.ledger, OnLedger(s, a).value))
    && match a
       case Begin(id, op, key) => id !in s.workers && key != ""
       case Body(id) =>
         id in s.workers && CanExecute(s.tables, s.workers[id]) && FreeOf(s, id, Needs(s.guards, s.tables, s.workers[id]))
       case Finalize(id) => id in s.workers && s.workers[id].pc.Finalizing?
       case ChangeOrder(order, status) =>
         && (order in s.tables.orders && s.tables.orders[order].Refunded? ==> status.Refunded?)
         && forall j | j in s.workers :: OrderRow(order) !in s.workers[j].locks
       case AddTransaction(row) =>
         && !row.refund
         && (s.guards.index ==> !KeyTaken(s.tables, row.key) &&
                                forall j | j in s.workers :: TransactionEntry(row.key) !in s.workers[j].locks)
       case _ => a.id in s.workers
  }

  function AfterClaim(w: Worker, phase: Ledger.Phase<Reply>): Worker {
    if phase.Working? then w.(pc := TakeAdvisory)
    else if phase.Refused? then Cleared(w)
    else w
  }

  ghost function Do(s: State, a: Action): State
    requires Enabled(s, a)
  {
    var l := OnLedger(s, a);
    var s1 := if l.Some? then s.(ledger := Ledger.Do(s.ledger, l.value)) else s;
    match a
    case Begin(id, op, key) => s1.(workers := s.workers[id := Worker(op, key, Claiming, {}, None, false, None)])
    case Claim(id) => s1.(workers := s.workers[id := AfterClaim(s.workers[id], s1.ledger.runs[id].phase)])
    case Read(id) => s1.(workers := s.workers[id := AfterClaim(s.workers[id], s1.ledger.runs[id].phase)])
    case Body(id) => s1.(workers := s.workers[id := Execute(s.guards, s.tables, s.workers[id])])
    case Finalize(id) => s1.(workers := s.workers[id := s.workers[id].(pc := Committing)])
    case Commit(id) =>
      s1.(tables := Committed(s.tables, s.workers[id]), workers := s.workers[id := Cleared(s.workers[id])])
    case Fail(id) => s1.(workers := s.workers[id := Cleared(s.workers[id])])
    case Crash(id) => s1.(workers := s.workers[id := Cleared(s.workers[id])])
    case Stamp(id) => s1
    case ChangeOrder(order, status) => s1.(tables := s.tables.(orders := s.tables.orders[order := status]))
    case AddTransaction(row) => s1.(tables := s.tables.(transactions := s.tables.transactions + [row]))
  }

  function Init(guards: Guards): State { State(guards, Tables(map[], [], []), Ledger.Init(), map[]) }

  ghost predicate CanRun(s: State, acts: seq<Action>)
    decreases |acts|
  {
    acts != [] ==> Enabled(s, acts[0]) && CanRun(Do(s, acts[0]), acts[1..])
  }

  ghost function Run(s: State, acts: seq<Action>): State
    requires CanRun(s, acts)
    decreases |acts|
  {
    if acts == [] then s else Run(Do(s, acts[0]), acts[1..])
  }
}

/** Refund atomicity, over every interleaving. */
module RefundSafety {
  import opened Prelude
  import opened Refunds
  import Ledger

  ghost predicate RefundedBy(t: Tables, i: nat, key: string) {
    i < |t.transactions| && t.transactions[i].refund && t.transactions[i].key == key
  }

  ghost predicate Unrefunded(t: Tables, key: string) {
    forall i {:trigger RefundedBy(t, i, key)} :: !RefundedBy(t, i, key)
  }

  /** One refund row per key, each with exactly one notice for the same order, which is refunded. */
  ghost predicate TablesOk(t: Tables) {
    && (forall i, j, key {:trigger RefundedBy(t, i, key), RefundedBy(t, j, key)} ::
          RefundedBy(t, i, key) && RefundedBy(t, j, key) ==> i == j)
    && (forall i, j | 0 <= i < |t.outbox| && 0 <= j < |t.outbox| :: t.outbox[i].key == t.outbox[j].key ==> i == j)
    && (forall i | 0 <= i < |t.transactions| && t.transactions[i].refund ::
          Notice(t.transactions[i].key, t.transactions[i].order) in t.outbox &&
          t.transactions[i].order in t.orders && t.orders[t.transactions[i].order].Refunded?)
    && (forall n | n in t.outbox :: !Unrefunded(t, n.key))
  }

  /** The transaction has the refund of its key to itself. */
  ghost predicate Alone(g: Guards, t: Tables, w: Worker) {
    Unrefunded(t, w.key) && (g.ledger || TransactionEntry(w.key) in w.locks)
  }

  predicate BeforeRow(pc: Pc) {
    pc.Claiming? || pc.Over? || pc.TakeAdvisory? || pc.FindOrder? || pc.InsertTransaction? || pc.ReadTransaction?
  }

  ghost predicate WorkerOk(g: Guards, t: Tables, w: Worker) {
    && (w.pc.Claiming? || w.pc.Over? ==> w.locks == {})
    && (BeforeRow(w.pc) ==> w.row.None?)
    && (w.pc.UpdateOrder? ==> w.row.Some? && !w.closes && w.notice.None?)
    && (w.pc.InsertNotice? ==> w.row.Some? && w.notice.None?)
    && (w.pc.InsertTransaction? || w.row.Some? ==> OrderRow(w.op.order) in w.locks && w.op.order in t.orders)
    && (w.row.Some? ==> w.row.value == RefundRow(w) && Alone(g, t, w))
    && (w.row.Some? && !w.pc.UpdateOrder? ==> w.closes || t.orders[w.op.order].Refunded?)
    && (w.row.None? ==> !w.closes && w.notice.None?)
    && (w.row.Some? && (w.pc.Finalizing? || w.pc.Committing?) ==> w.notice == Some(Notice(w.key, w.op.order)))
  }

  ghost predicate InStep(g: Guards, t: Tables, w: Worker, run: Ledger.Attempt<string, Op, Reply>) {
    && run.hash == w.op
    && run.key == (if g.ledger then Some(w.key) else None)
    && match run.phase
       case Ready | Conflicted | Replaying(_) => w.pc.Claiming?
       case Working => InBody(w.pc) || w.pc.Finalizing?
       case Finalized(_) => w.pc.Committing?
       case _ => w.pc.Over?
  }

  ghost predicate LocksApart(workers: map<nat, Worker>) {
    forall i, j | i in workers && j in workers && i != j :: workers[i].locks !! workers[j].locks
  }

  ghost predicate InSteps(s: State) {
    && s.ledger.runs.Keys == s.workers.Keys
    && forall j {:trigger InStep(s.guards, s.tables, s.workers[j], s.ledger.runs[j])} | j in s.workers ::
         InStep(s.guards, s.tables, s.workers[j], s.ledger.runs[j])
  }

  ghost predicate WorkersOk(s: State) {
    forall j {:trigger WorkerOk(s.guards, s.tables, s.workers[j])} | j in s.workers ::
      WorkerOk(s.guards, s.tables, s.workers[j])
  }

  /** With the ledger on, a key that has been refunded is in the ledger for good. */
  ghost predicate Recorded(s: State) {
    s.guards.ledger ==>
      forall i, key {:trigger RefundedBy(s.tables, i, key)} :: RefundedBy(s.tables, i, key) ==> key in s.ledger.rows
  }

  ghost predicate Inv(s: State) {
    && (s.guards.ledger || s.guards.index)
    && Ledger.Inv(s.ledger) && InSteps(s) && LocksApart(s.workers) && Recorded(s) && TablesOk(s.tables) && WorkersOk(s)
  }

  // ---------------------------------------------------------------- what a transaction has to itself

  lemma ClaimedAlone(s: State, j: nat)
    requires Inv(s) && s.guards.ledger && j in s.workers && Ledger.Claimed(s.ledger.runs[j])
    ensures Unrefunded(s.tables, s.workers[j].key)
  {
    assert InStep(s.guards, s.tables, s.workers[j], s.ledger.runs[j]);
    assert Ledger.RunOk(s.ledger, s.ledger.runs[j]);
  }

  /** Two transactions that have both inserted a refund row have different keys. */
  lemma KeysApart(s: State, i: nat, j: nat)
    requires Inv(s) && i in s.workers && j in s.workers && s.workers[i].row.Some? && s.workers[j].row.Some?
    requires s.workers[i].key == s.workers[j].key
    ensures i == j
  {
    assert InStep(s.guards, s.tables, s.workers[i], s.ledger.runs[i]) && WorkerOk(s.guards, s.tables, s.workers[i]);
    assert InStep(s.guards, s.tables, s.workers[j], s.ledger.runs[j]) && WorkerOk(s.guards, s.tables, s.workers[j]);
    if s.guards.ledger {
      assert Ledger.Claimed(s.ledger.runs[i]) && Ledger.Claimed(s.ledger.runs[j]);
    }
  }

  /** Inserting the refund row, or finding the transaction id taken. */
  lemma InsertOk(s: State, id: nat)
    requires Inv(s) && Enabled(s, Body(id)) && s.workers[id].pc.InsertTransaction?
    ensures WorkerOk(s.guards, s.tables, Execute(s.guards, s.tables, s.workers[id]))
  {
    var w := s.workers[id];
    assert InStep(s.guards, s.tables, w, s.ledger.runs[id]) && WorkerOk(s.guards, s.tables, w);
    if s.guards.ledger {
      ClaimedAlone(s, id);
    } else if !Conflicts(s.guards, s.tables, w) {
      forall i: nat ensures !RefundedBy(s.tables, i, w.key) {
        assert i < |s.tables.transactions| ==> s.tables.transactions[i] in s.tables.transactions;
      }
    }
  }

  lemma BodyOk(s: State, id: nat)
    requires Inv(s) && Enabled(s, Body(id))
    ensures WorkerOk(s.guards, s.tables, Execute(s.guards, s.tables, s.workers[id]))
  {
    var w := s.workers[id];
    if w.pc.InsertTransaction? {
      InsertOk(s, id);
    } else {
      assert WorkerOk(s.guards, s.tables, w);
      assert w.pc.InsertNotice? ==> !Noticed(s.tables, w.key);
    }
  }

  // ---------------------------------------------------------------- commit

  lemma NothingWritten(t: Tables, w: Worker)
    requires w.row.None? && !w.closes && w.notice.None?
    ensures Committed(t, w) == t
  {
  }

  ghost predicate Ready(g: Guards, t: Tables, w: Worker) {
    WorkerOk(g, t, w) && w.pc.Committing? && w.row.Some?
  }

  /** Only the new row is a refund that was not one before. */
  lemma CommitRefundedBy(g: Guards, t: Tables, w: Worker, i: nat, key: string)
    requires Ready(g, t, w)
    ensures RefundedBy(Committed(t, w), i, key) <==>
            RefundedBy(t, i, key) || (i == |t.transactions| && key == w.key)
  {
  }

  lemma CommitUnique(g: Guards, t: Tables, w: Worker)
    requires TablesOk(t) && Ready(g, t, w)
    ensures forall i, j, key {:trigger RefundedBy(Committed(t, w), i, key), RefundedBy(Committed(t, w), j, key)} ::
              RefundedBy(Committed(t, w), i, key) && RefundedBy(Committed(t, w), j, key) ==> i == j
  {
    forall i, j, key | RefundedBy(Committed(t, w), i, key) && RefundedBy(Committed(t, w), j, key) ensures i == j {
      CommitRefundedBy(g, t, w, i, key);
      CommitRefundedBy(g, t, w, j, key);
      assert !RefundedBy(t, i, w.key) && !RefundedBy(t, j, w.key);
    }
  }

  lemma CommitNotices(g: Guards, t: Tables, w: Worker)
    requires TablesOk(t) && Ready(g, t, w)
    ensures var u := Committed(t, w);
            (forall i, j | 0 <= i < |u.outbox| && 0 <= j < |u.outbox| :: u.outbox[i].key == u.outbox[j].key ==> i == j) &&
            (forall n | n in u.outbox :: !Unrefunded(u, n.key))
  {
    var u := Committed(t, w);
    forall i | 0 <= i < |t.outbox| ensures t.outbox[i].key != w.key {
      assert t.outbox[i] in t.outbox;
    }
    forall n | n in u.outbox ensures !Unrefunded(u, n.key) {
      if n in t.outbox {
        var i :| RefundedBy(t, i, n.key);
        CommitRefundedBy(g, t, w, i, n.key);
      } else {
        CommitRefundedBy(g, t, w, |t.transactions|, n.key);
      }
    }
  }

  lemma CommitAtomic(g: Guards, t: Tables, w: Worker, i: nat)
    requires TablesOk(t) && Ready(g, t, w)
    requires i < |Committed(t, w).transactions| && Committed(t, w).transactions[i].refund
    ensures var u := Committed(t, w);
            Notice(u.transactions[i].key, u.transactions[i].order) in u.outbox &&
            u.transactions[i].order in u.orders && u.orders[u.transactions[i].order].Refunded?
  {
    if i == |t.transactions| {
      assert Committed(t, w).outbox[|t.outbox|] == Notice(w.key, w.op.order);
    } else {
      var n := Notice(t.transactions[i].key, t.transactions[i].order);
      assert n in t.outbox;
      assert n in Committed(t, w).outbox;
    }
  }

  lemma CommitTables(g: Guards, t: Tables, w: Worker)
    requires TablesOk(t) && WorkerOk(g, t, w) && (w.pc.Committing? || w.pc.Claiming?)
    ensures TablesOk(Committed(t, w))
  {
    if w.row.None? {
      NothingWritten(t, w);
    } else {
      CommitUnique(g, t, w);
      CommitNotices(g, t, w);
      forall i | 0 <= i < |Committed(t, w).transactions| && Committed(t, w).transactions[i].refund
        ensures var u := Committed(t, w);
                Notice(u.transactions[i].key, u.transactions[i].order) in u.outbox &&
                u.transactions[i].order in u.orders && u.orders[u.transactions[i].order].Refunded?
      {
        CommitAtomic(g, t, w, i);
      }
    }
  }

  lemma OthersAfterCommit(g: Guards, t: Tables, w: Worker, v: Worker)
    requires WorkerOk(g, t, w) && WorkerOk(g, t, v) && v.locks !! w.locks && (w.pc.Committing? || w.pc.Claiming?)
    requires w.row.Some? && v.row.Some? ==> w.key != v.key
    ensures WorkerOk(g, Committed(t, w), v)
  {
    if w.row.None? {
      NothingWritten(t, w);
    } else if v.row.Some? {
      forall i: nat ensures !RefundedBy(Committed(t, w), i, v.key) {
        CommitRefundedBy(g, t, w, i, v.key);
      }
    }
  }

  // ---------------------------------------------------------------- changes made elsewhere

  lemma ChangeKeepsTables(s: State, a: Action)
    requires Inv(s) && Enabled(s, a) && (a.ChangeOrder? || a.AddTransaction?)
    ensures TablesOk(Do(s, a).tables)
    ensures forall i, key :: RefundedBy(Do(s, a).tables, i, key) <==> RefundedBy(s.tables, i, key)
  {
    var t, u := s.tables, Do(s, a).tables;
    forall i: nat, j: nat, key | RefundedBy(u, i, key) && RefundedBy(u, j, key) ensures i == j {
      assert RefundedBy(t, i, key) && RefundedBy(t, j, key);
    }
    forall n | n in s.tables.outbox ensures !Unrefunded(Do(s, a).tables, n.key) {
      var i :| RefundedBy(s.tables, i, n.key);
      assert RefundedBy(Do(s, a).tables, i, n.key);
    }
  }

  lemma ChangeKeepsWorker(s: State, a: Action, j: nat)
    requires Inv(s) && Enabled(s, a) && (a.ChangeOrder? || a.AddTransaction?) && j in s.workers
    ensures WorkerOk(s.guards, Do(s, a).tables, s.workers[j])
  {
    assert WorkerOk(s.guards, s.tables, s.workers[j]);
    ChangeKeepsTables(s, a);
    assert Unrefunded(s.tables, s.workers[j].key) ==> Unrefunded(Do(s, a).tables, s.workers[j].key);
  }

  // ---------------------------------------------------------------- every step

  predicate Acts(a: Action, j: nat) { !a.ChangeOrder? && !a.AddTransaction? && a.id == j }

  lemma DoKeepsLedger(s: State, a: Action)
    requires Inv(s) && Enabled(s, a)
    ensures Ledger.Inv(Do(s, a).ledger) && Do(s, a).ledger.runs.Keys == Do(s, a).workers.Keys
  {
    if OnLedger(s, a).Some? {
      Ledger.DoKeepsInv(s.ledger, OnLedger(s, a).value);
      Ledger.KeysAfter(s.ledger, OnLedger(s, a).value);
    }
  }

  lemma OthersInStep(s: State, a: Action, j: nat)
    requires Inv(s) && Enabled(s, a) && j in s.workers && !Acts(a, j)
    ensures Do(s, a).ledger.runs[j] == s.ledger.runs[j] && Do(s, a).workers[j] == s.workers[j]
  {
    if OnLedger(s, a).Some? {
      Ledger.OthersStay(s.ledger, OnLedger(s, a).value, j);
    }
  }

  lemma OwnInStep(s: State, a: Action)
    requires Inv(s) && Enabled(s, a) && (a.Claim? || a.Read? || a.Body?)
    ensures InStep(s.guards, Do(s, a).tables, Do(s, a).workers[a.id], Do(s, a).ledger.runs[a.id])
  {
    assert InStep(s.guards, s.tables, s.workers[a.id], s.ledger.runs[a.id]);
  }

  lemma FinishInStep(s: State, a: Action)
    requires Inv(s) && Enabled(s, a) && (a.Finalize? || a.Commit?)
    ensures InStep(s.guards, Do(s, a).tables, Do(s, a).workers[a.id], Do(s, a).ledger.runs[a.id])
  {
    assert InStep(s.guards, s.tables, s.workers[a.id], s.ledger.runs[a.id]);
  }

  lemma EndInStep(s: State, a: Action)
    requires Inv(s) && Enabled(s, a) && (a.Fail? || a.Crash? || a.Stamp?)
    ensures InStep(s.guards, Do(s, a).tables, Do(s, a).workers[a.id], Do(s, a).ledger.runs[a.id])
  {
    assert InStep(s.guards, s.tables, s.workers[a.id], s.ledger.runs[a.id]);
  }

  lemma DoKeepsInSteps(s: State, a: Action)
    requires Inv(s) && Enabled(s, a)
    ensures InSteps(Do(s, a))
  {
    var u := Do(s, a);
    DoKeepsLedger(s, a);
    forall j | j in u.workers ensures InStep(u.guards, u.tables, u.workers[j], u.ledger.runs[j]) {
      if j in s.workers {
        assert InStep(s.guards, s.tables, s.workers[j], s.ledger.runs[j]);
        if !Acts(a, j) {
          OthersInStep(s, a, j);
        } else if a.Claim? || a.Read? || a.Body? {
          OwnInStep(s, a);
        } else if a.Finalize? || a.Commit? {
          FinishInStep(s, a);
        } else {
          EndInStep(s, a);
        }
      }
    }
  }

  lemma BodyKeepsLocksApart(s: State, id: nat)
    requires Inv(s) && Enabled(s, Body(id))
    ensures LocksApart(Do(s, Body(id)).workers)
  {
    assert Do(s, Body(id)).workers[id].locks == s.workers[id].locks + Needs(s.guards, s.tables, s.workers[id]);
  }

  lemma DoKeepsLocksApart(s: State, a: Action)
    requires Inv(s) && Enabled(s, a)
    ensures LocksApart(Do(s, a).workers)
  {
    hide Ledger.Inv, Recorded, TablesOk, WorkersOk, InSteps, Execute;
    if a.Body? {
      BodyKeepsLocksApart(s, a.id);
    } else {
      forall j | j in Do(s, a).workers
        ensures if j in s.workers then Do(s, a).workers[j].locks <= s.workers[j].locks else Do(s, a).workers[j].locks == {} {
      }
    }
  }

  lemma DoKeepsRecorded(s: State, a: Action)
    requires Inv(s) && Enabled(s, a)
    ensures Recorded(Do(s, a))
  {
    if a.Commit? {
      var w := s.workers[a.id];
      assert InStep(s.guards, s.tables, w, s.ledger.runs[a.id]) && WorkerOk(s.guards, s.tables, w);
      if w.row.None? {
        NothingWritten(s.tables, w);
      } else {
        forall i, key | RefundedBy(Do(s, a).tables, i, key)
          ensures RefundedBy(s.tables, i, key) || key == w.key
        {
          CommitRefundedBy(s.guards, s.tables, w, i, key);
        }
      }
    } else if a.ChangeOrder? || a.AddTransaction? {
      ChangeKeepsTables(s, a);
    }
  }

  lemma DoKeepsTables(s: State, a: Action)
    requires Inv(s) && Enabled(s, a)
    ensures TablesOk(Do(s, a).tables)
  {
    if a.Commit? {
      assert InStep(s.guards, s.tables, s.workers[a.id], s.ledger.runs[a.id]);
      assert WorkerOk(s.guards, s.tables, s.workers[a.id]);
      CommitTables(s.guards, s.tables, s.workers[a.id]);
    } else if a.ChangeOrder? || a.AddTransaction? {
      ChangeKeepsTables(s, a);
    }
  }

  lemma CommitKeepsWorker(s: State, id: nat, j: nat)
    requires Inv(s) && Enabled(s, Commit(id)) && j in s.workers && j != id
    ensures WorkerOk(s.guards, Committed(s.tables, s.workers[id]), s.workers[j])
  {
    assert InStep(s.guards, s.tables, s.workers[id], s.ledger.runs[id]);
    assert WorkerOk(s.guards, s.tables, s.workers[id]) && WorkerOk(s.guards, s.tables, s.workers[j]);
    if s.workers[id].row.Some? && s.workers[j].row.Some? && s.workers[id].key == s.workers[j].key {
      KeysApart(s, id, j);
    }
    OthersAfterCommit(s.guards, s.tables, s.workers[id], s.workers[j]);
  }

  lemma PhaseKeepsWorker(s: State, a: Action)
    requires Inv(s) && Enabled(s, a) && !a.Begin? && !a.Body? && !a.Commit? && !a.ChangeOrder? && !a.AddTransaction?
    ensures WorkerOk(s.guards, s.tables, Do(s, a).workers[a.id])
  {
    assert InStep(s.guards, s.tables, s.workers[a.id], s.ledger.runs[a.id]);
    assert WorkerOk(s.guards, s.tables, s.workers[a.id]);
  }

  lemma DoKeepsWorkers(s: State, a: Action)
    requires Inv(s) && Enabled(s, a)
    ensures WorkersOk(Do(s, a))
  {
    var u := Do(s, a);
    forall j | j in u.workers ensures WorkerOk(u.guards, u.tables, u.workers[j]) {
      if j in s.workers {
        assert WorkerOk(s.guards, s.tables, s.workers[j]);
        if a.ChangeOrder? || a.AddTransaction? {
          ChangeKeepsWorker(s, a, j);
        } else if !Acts(a, j) {
          OthersInStep(s, a, j);
          if a.Commit? {
            CommitKeepsWorker(s, a.id, j);
          }
        } else if a.Body? {
          BodyOk(s, j);
        } else if !a.Commit? {
          PhaseKeepsWorker(s, a);
        }
      }
    }
  }

  lemma {:induction false} RunKeepsInv(s: State, acts: seq<Action>)
    requires Inv(s) && CanRun(s, acts)
    ensures Inv(Run(s, acts)) && Run(s, acts).guards == s.guards
    decreases |acts|
  {
    if acts != [] {
      var a := acts[0];
      DoKeepsLedger(s, a);
      DoKeepsInSteps(s, a);
      DoKeepsLocksApart(s, a);
      DoKeepsRecorded(s, a);
      DoKeepsTables(s, a);
      DoKeepsWorkers(s, a);
      RunKeepsInv(Do(s, a), acts[1..]);
    }
  }

  // ---------------------------------------------------------------- what a refund promises

  /** At most one refund row per key. Either guard alone is enough: the ledger, or the unique transaction id. */
  lemma OneRefundPerKey(guards: Guards, acts: seq<Action>, i: nat, j: nat)
    requires guards.ledger || guards.index
    requires CanRun(Init(guards), acts)
    requires var t := Run(Init(guards), acts).tables.transactions;
             i < |t| && j < |t| && t[i].refund && t[j].refund && t[i].key == t[j].key
    ensures i == j
  {
    RunKeepsInv(Init(guards), acts);
    var t := Run(Init(guards), acts).tables;
    assert RefundedBy(t, i, t.transactions[i].key) && RefundedBy(t, j, t.transactions[i].key);
  }

  /** A refund row, its notification and the refunded order are there together. */
  lemma RefundIsAtomic(guards: Guards, acts: seq<Action>, i: nat)
    requires guards.ledger || guards.index
    requires CanRun(Init(guards), acts)
    requires i < |Run(Init(guards), acts).tables.transactions| && Run(Init(guards), acts).tables.transactions[i].refund
    ensures var t := Run(Init(guards), acts).tables;
            var r := t.transactions[i];
            && Notice(r.key, r.order) in t.outbox
            && (forall m, n | 0 <= m < |t.outbox| && 0 <= n < |t.outbox| ::
                  t.outbox[m].key == r.key && t.outbox[n].key == r.key ==> m == n)
            && r.order in t.orders && t.orders[r.order].Refunded?
  {
    RunKeepsInv(Init(guards), acts);
  }

  /** And a notification is there only with its refund. */
  lemma NoticeHasRefund(guards: Guards, acts: seq<Action>, k: nat) returns (i: nat)
    requires guards.ledger || guards.index
    requires CanRun(Init(guards), acts) && k < |Run(Init(guards), acts).tables.outbox|
    ensures var t := Run(Init(guards), acts).tables;
            i < |t.transactions| && t.transactions[i].refund &&
            t.outbox[k] == Notice(t.transactions[i].key, t.transactions[i].order)
  {
    RunKeepsInv(Init(guards), acts);
    var t := Run(Init(guards), acts).tables;
    assert t.outbox[k] in t.outbox;
    i :| RefundedBy(t, i, t.outbox[k].key);
    var m :| 0 <= m < |t.outbox| && t.outbox[m] == Notice(t.transactions[i].key, t.transactions[i].order);
    assert m == k;
  }
}
