/**
 Driver payouts: generateMonthlySettlement, approveSettlement and processSettlement as a state machine whose
 steps are single SQL statements of concurrent transactions (READ COMMITTED).

 The tables hold committed rows only. A transaction keeps the rows it has written, and the locks it has taken,
 in its worker until it commits or rolls back; its row locks make the two views agree on what it wrote.
 Amounts are integers in minor units. Orders and incentives are numbered by their position.
 */
module Settlement {
  import opened Prelude
  import opened Periods
  import Ledger

  datatype Order = Order(driver: int, delivered: bool, deliveredAt: Option<int>, fee: int)

  datatype IncentiveStatus = Approved | Paid | OtherStatus

  datatype Incentive = Incentive(driver: int, amount: int, earnedAt: int, status: IncentiveStatus, settlement: Option<nat>)

  datatype PayoutStatus = Pending | Authorised | Completed

  datatype Payment = Payment(channel: string, reference: string)

  datatype Payout = Payout(driver: int, window: Window, base: int, bonus: int, total: int,
                           status: PayoutStatus, approvedBy: Option<int>, payment: Option<Payment>)

  /** The calls, which are also the request payloads the ledger compares. */
  datatype Op =
    | Generate(driver: int, month: int, year: int)
    | Approve(payout: nat, approver: int)
    | Process(payout: nat, payment: Payment)

  datatype Scope = GenerateScope | ApproveScope | ProcessScope

  datatype Key = Key(scope: Scope, name: string)

  datatype Reply = Row(id: nat, payout: Payout) | Flag(value: bool) | NoRow

  datatype Lock =
    | KeyRow(key: Key)
    | Advisory(driver: int, window: Window)
    | PayoutRow(id: nat)
    | WindowEntry(driver: int, window: Window)   // entry of the unique index on (driver, period)
    | IncentiveRow(index: nat)

  /** The statement a transaction executes next. */
  datatype Pc =
    | Claiming
    | TakeAdvisory
    | FindWindow
    | SumFees
    | SumBonus(base: int)
    | InsertPayout(base: int, bonus: int)
    | ReadBack
    | LinkIncentives(id: nat)
    | FindForApproval
    | MarkApproved
    | FindForPayment
    | MarkCompleted
    | PayIncentives
    | Finalizing(reply: Reply)
    | Committing
    | Over

  /**
   How a settlement came about; no statement reads it. `read` are the orders as its SUM of fees found them, `late` what
   later changes of orders would have added to that sum, `drift` what changes of incentives between the SUM of bonuses
   and the UPDATE that links them would have added, `edited` the incentives created or changed since that UPDATE.
   */
  datatype History = History(read: seq<Order>, late: int, drift: int, edited: set<nat>)

  const NO_HISTORY := History([], 0, 0, {})

  datatype Worker = Worker(op: Op, pc: Pc, locks: set<Lock>, rows: map<nat, Payout>, links: set<nat>, pays: set<nat>,
                           past: History)

  datatype Tables = Tables(orders: seq<Order>, incentives: seq<Incentive>, payouts: map<nat, Payout>, nextId: nat,
                           past: map<nat, History>)

  /** `advisory` tells whether the advisory lock works; the unique index must hold the line without it. */
  datatype State = State(advisory: bool, tables: Tables, ledger: Ledger.State<Key, Op, Reply>, workers: map<nat, Worker>)

  datatype Action =
    | Begin(id: nat, op: Op, name: Option<string>)
    | Claim(id: nat)
    | Read(id: nat)
    | Body(id: nat)
    | Finalize(id: nat)
    | Commit(id: nat)
    | Fail(id: nat)
    | Crash(id: nat)
    | Stamp(id: nat)
    | ChangeOrder(index: nat, order: Order)              // other parts of the platform
    | ChangeIncentive(index: nat, incentive: Incentive)

  // ---------------------------------------------------------------- queries

  function SumFeesOf(orders: seq<Order>, chosen: set<nat>): int {
    if orders == [] then 0
    else
      var last := |orders| - 1;
      SumFeesOf(orders[..last], chosen) + if last in chosen then orders[last].fee else 0
  }

  function SumAmounts(incentives: seq<Incentive>, chosen: set<nat>): int {
    if incentives == [] then 0
    else
      var last := |incentives| - 1;
      SumAmounts(incentives[..last], chosen) + if last in chosen then incentives[last].amount else 0
  }

  predicate IsDelivery(o: Order, driver: int, window: Window) {
    o.driver == driver && o.delivered && o.deliveredAt.Some? && Contains(window, o.deliveredAt.value)
  }

  function Deliveries(orders: seq<Order>, driver: int, window: Window): set<nat> {
    set i: nat | i < |orders| && IsDelivery(orders[i], driver, window)
  }

  predicate IsEligible(i: Incentive, driver: int, window: Window) {
    i.driver == driver && i.status.Approved? && i.settlement.None? && Contains(window, i.earnedAt)
  }

  function Eligible(incentives: seq<Incentive>, driver: int, window: Window): set<nat> {
    set i: nat | i < |incentives| && IsEligible(incentives[i], driver, window)
  }

  function Linked(incentives: seq<Incentive>, id: nat): set<nat> {
    set i: nat | i < |incentives| && incentives[i].settlement == Some(id)
  }

  predicate SettledBy(p: Payout, driver: int, window: Window) { p.driver == driver && p.window == window }

  function Settled(payouts: map<nat, Payout>, driver: int, window: Window): set<nat> {
    set i | i in payouts && SettledBy(payouts[i], driver, window)
  }

  // ---------------------------------------------------------------- one statement

  function ScopeOf(op: Op): Scope {
    match op
    case Generate(_, _, _) => GenerateScope
    case Approve(_, _) => ApproveScope
    case Process(_, _) => ProcessScope
  }

  /** generateMonthlySettlement throws before it opens a transaction when the month is invalid. */
  predicate Callable(op: Op) { op.Generate? ==> UtcPeriod(op.month, op.year).Period? }

  predicate WindowKnown(op: Op) { op.Generate? ==> HasWindow(op.month, op.year) }

  function OpWindow(op: Op): Window
    requires op.Generate? && WindowKnown(op)
  {
    WindowOf(op.month, op.year)
  }

  function FirstPc(op: Op): Pc {
    match op
    case Generate(_, _, _) => TakeAdvisory
    case Approve(_, _) => FindForApproval
    case Process(_, _) => FindForPayment
  }

  predicate InBody(pc: Pc) {
    !pc.Claiming? && !pc.Finalizing? && !pc.Committing? && !pc.Over?
  }

  /** The body statements of each operation. */
  predicate PcFits(op: Op, pc: Pc) {
    match pc
    case TakeAdvisory => op.Generate?
    case FindWindow | SumFees | SumBonus(_) | InsertPayout(_, _) | ReadBack | LinkIncentives(_) =>
      op.Generate? && WindowKnown(op)
    case FindForApproval | MarkApproved => op.Approve?
    case FindForPayment | MarkCompleted | PayIncentives => op.Process?
    case _ => true
  }

  /** The locks the next body statement needs. */
  function Needs(advisory: bool, t: Tables, w: Worker): set<Lock>
    requires PcFits(w.op, w.pc) && (w.pc.TakeAdvisory? ==> WindowKnown(w.op))
  {
    match w.pc
    case TakeAdvisory => if advisory then {Advisory(w.op.driver, OpWindow(w.op))} else {}
    case FindWindow => set i | i in Settled(t.payouts, w.op.driver, OpWindow(w.op)) :: PayoutRow(i)
    case InsertPayout(_, _) =>
      if Settled(t.payouts, w.op.driver, OpWindow(w.op)) != {} then {} else {WindowEntry(w.op.driver, OpWindow(w.op))}
    case LinkIncentives(_) =>
      set i | i in Eligible(t.incentives, w.op.driver, OpWindow(w.op)) :: IncentiveRow(i)
    case FindForApproval | MarkApproved | FindForPayment | MarkCompleted =>
      if w.op.payout in t.payouts then {PayoutRow(w.op.payout)} else {}
    case PayIncentives =>
      set i | i in Unpaid(t.incentives, w.op.payout) :: IncentiveRow(i)
    case _ => {}
  }

  ghost function RowFor(payouts: map<nat, Payout>, driver: int, window: Window): Reply {
    var found := Settled(payouts, driver, window);
    if found == {} then NoRow else var id :| id in found; Row(id, payouts[id])
  }

  /** The incentives of a payout that are still to be paid. */
  function Unpaid(incentives: seq<Incentive>, id: nat): set<nat> {
    set i | i in Linked(incentives, id) && incentives[i].status.Approved?
  }

  /** The transaction after its statement. A fresh row takes the id `t.nextId`. */
  ghost function Execute(advisory: bool, t: Tables, w: Worker): Worker
    requires InBody(w.pc) && PcFits(w.op, w.pc) && (w.pc.TakeAdvisory? ==> WindowKnown(w.op))
  {
    var v := w.(locks := w.locks + Needs(advisory, t, w));
    match w.op
    case Generate(_, _, _) => GenerateStep(t, v)
    case Approve(_, _) => ApproveStep(t, v)
    case Process(_, _) => ProcessStep(t, v)
  }

  ghost function GenerateStep(t: Tables, v: Worker): Worker
    requires v.op.Generate? && WindowKnown(v.op) && InBody(v.pc) && PcFits(v.op, v.pc)
  {
    var driver, window := v.op.driver, OpWindow(v.op);
    match v.pc
    case TakeAdvisory => v.(pc := FindWindow)
    case FindWindow =>
      var row := RowFor(t.payouts, driver, window);
      v.(pc := if row.NoRow? then SumFees else Finalizing(row))
    case SumFees =>
      var chosen := Deliveries(t.orders, driver, window);
      v.(past := v.past.(read := t.orders, late := 0), pc := SumBonus(SumFeesOf(t.orders, chosen)))
    case SumBonus(base) =>
      v.(past := v.past.(drift := 0), pc := InsertPayout(base, SumAmounts(t.incentives, Eligible(t.incentives, driver, window))))
    case InsertPayout(base, bonus) =>
      if Settled(t.payouts, driver, window) != {} then v.(pc := ReadBack)
      else
        var p := Payout(driver, window, base, bonus, base + bonus, Pending, None, None);
        v.(pc := LinkIncentives(t.nextId), rows := map[t.nextId := p], locks := v.locks + {PayoutRow(t.nextId)})
    case ReadBack => v.(pc := Finalizing(RowFor(t.payouts, driver, window)))
    case LinkIncentives(id) =>
      v.(links := Eligible(t.incentives, driver, window), past := v.past.(edited := {}),
         pc := Finalizing(if id in v.rows then Row(id, v.rows[id]) else NoRow))
  }

  ghost function ApproveStep(t: Tables, v: Worker): Worker
    requires v.op.Approve? && InBody(v.pc) && PcFits(v.op, v.pc)
  {
    var id := v.op.payout;
    match v.pc
    case FindForApproval =>
      if id !in t.payouts then v.(pc := Finalizing(Flag(false)))
      else if t.payouts[id].status.Authorised? && t.payouts[id].approvedBy == Some(v.op.approver) then
        v.(pc := Finalizing(Flag(true)))
      else if !t.payouts[id].status.Pending? then v.(pc := Finalizing(Flag(false)))
      else v.(pc := MarkApproved)
    case MarkApproved =>
      if id in t.payouts && t.payouts[id].status.Pending? then
        var p := t.payouts[id].(status := Authorised, approvedBy := Some(v.op.approver));
        v.(rows := map[id := p], pc := Finalizing(Flag(true)))
      else v.(pc := Finalizing(Flag(false)))
  }

  ghost function ProcessStep(t: Tables, v: Worker): Worker
    requires v.op.Process? && InBody(v.pc) && PcFits(v.op, v.pc)
  {
    var id := v.op.payout;
    match v.pc
    case FindForPayment =>
      if id !in t.payouts then v.(pc := Finalizing(Flag(false)))
      else if t.payouts[id].status.Completed? && t.payouts[id].payment == Some(v.op.payment) then
        v.(pc := Finalizing(Flag(true)))
      else if !t.payouts[id].status.Authorised? then v.(pc := Finalizing(Flag(false)))
      else v.(pc := MarkCompleted)
    case MarkCompleted =>
      if id in t.payouts && t.payouts[id].status.Authorised? then
        var p := t.payouts[id].(status := Completed, payment := Some(v.op.payment));
        v.(rows := map[id := p], pc := PayIncentives)
      else v.(pc := Finalizing(Flag(false)))
    case PayIncentives => v.(pays := Unpaid(t.incentives, id), pc := Finalizing(Flag(true)))
  }

  // ---------------------------------------------------------------- commit and rollback

  function Cleared(w: Worker): Worker { Worker(w.op, Over, {}, map[], {}, {}, NO_HISTORY) }

  function Written(i: Incentive, index: nat, w: Worker, id: nat): Incentive {
    var linked := if index in w.links then i.(settlement := Some(id)) else i;
    if index in w.pays then linked.(status := Paid) else linked
  }

  /** The id the links of a generate worker point to. */
  ghost function NewId(w: Worker): nat {
    if w.rows.Keys == {} then 0 else var id :| id in w.rows; id
  }

  ghost function WrittenAll(incentives: seq<Incentive>, w: Worker): seq<Incentive> {
    seq(|incentives|, i requires 0 <= i < |incentives| => Written(incentives[i], i, w, NewId(w)))
  }

  ghost function Committed(t: Tables, w: Worker): Tables {
    var added := w.rows.Keys - t.payouts.Keys;
    t.(payouts := t.payouts + w.rows, incentives := WrittenAll(t.incentives, w),
       past := t.past + (map i | i in added :: w.past))
  }

  // ---------------------------------------------------------------- changes made elsewhere

  /** An order keeps its driver and delivery time once it has been delivered. */
  predicate OrderChange(orders: seq<Order>, index: nat, order: Order) {
    index <= |orders| &&
    (index < |orders| && orders[index].deliveredAt.Some? ==>
       order.driver == orders[index].driver && order.deliveredAt == orders[index].deliveredAt)
  }

  function PutOrder(orders: seq<Order>, index: nat, order: Order): seq<Order>
    requires index <= |orders|
  {
    if index < |orders| then orders[index := order] else orders + [order]
  }

  /** Incentives may be created and edited freely until a settlement links them, but not linked by anyone else. */
  predicate IncentiveChange(incentives: seq<Incentive>, index: nat, incentive: Incentive) {
    index <= |incentives| && incentive.settlement.None? &&
    (index < |incentives| ==> incentives[index].settlement.None?)
  }

  function PutIncentive(incentives: seq<Incentive>, index: nat, incentive: Incentive): seq<Incentive>
    requires index <= |incentives|
  {
    if index < |incentives| then incentives[index := incentive] else incentives + [incentive]
  }

  function EligibleAmount(i: Incentive, driver: int, window: Window): int {
    if IsEligible(i, driver, window) then i.amount else 0
  }

  /** What a change adds to the sum a generate worker read, if it falls between its SUM and its claiming UPDATE. */
  function DriftOf(w: Worker, incentives: seq<Incentive>, index: nat, incentive: Incentive): int
    requires index <= |incentives|
  {
    if (w.pc.InsertPayout? || w.pc.LinkIncentives?) && w.op.Generate? && WindowKnown(w.op) then
      var before := if index < |incentives| then EligibleAmount(incentives[index], w.op.driver, OpWindow(w.op)) else 0;
      EligibleAmount(incentive, w.op.driver, OpWindow(w.op)) - before
    else 0
  }

  function Edited(h: History, index: nat): History { h.(edited := h.edited + {index}) }

  function Drifted(w: Worker, incentives: seq<Incentive>, index: nat, incentive: Incentive): Worker
    requires index <= |incentives|
  {
    w.(past := Edited(w.past, index).(drift := w.past.drift + DriftOf(w, incentives, index, incentive)))
  }

  function FeeIn(o: Order, driver: int, window: Window): int { if IsDelivery(o, driver, window) then o.fee else 0 }

  /** What a change of an order adds to the fees a driver has earned in a window. */
  function LateFee(orders: seq<Order>, index: nat, order: Order, driver: int, window: Window): int
    requires index <= |orders|
  {
    FeeIn(order, driver, window) - if index < |orders| then FeeIn(orders[index], driver, window) else 0
  }

  /** The change comes after the SUM of the transaction, or before it, which resets the count. */
  function Delayed(w: Worker, orders: seq<Order>, index: nat, order: Order): Worker
    requires index <= |orders|
  {
    if w.op.Generate? && WindowKnown(w.op) then
      w.(past := w.past.(late := w.past.late + LateFee(orders, index, order, w.op.driver, OpWindow(w.op))))
    else w
  }

  /** The tables after a change of an order. */
  function Reordered(t: Tables, index: nat, order: Order): Tables
    requires index <= |t.orders|
  {
    t.(orders := PutOrder(t.orders, index, order),
       past := map id | id in t.past :: if id !in t.payouts then t.past[id] else
                 t.past[id].(late := t.past[id].late +
                                     LateFee(t.orders, index, order, t.payouts[id].driver, t.payouts[id].window)))
  }

  /** The tables after a change of an incentive. */
  function Reincentivised(t: Tables, index: nat, incentive: Incentive): Tables
    requires index <= |t.incentives|
  {
    t.(incentives := PutIncentive(t.incentives, index, incentive), past := map id | id in t.past :: Edited(t.past[id], index))
  }

  // ---------------------------------------------------------------- the machine

  ghost predicate FreeOf(s: State, id: nat, locks: set<Lock>) {
    forall j | j in s.workers && j != id :: s.workers[j].locks !! locks
  }

  /** What an action does to the ledger, if anything. */
  function OnLedger(s: State, a: Action): Option<Ledger.Action<Key, Op, Reply>> {
    match a
    case Begin(id, op, name) =>
      Some(Ledger.Begin(id, if name.None? then None else Some(Key(ScopeOf(op), name.value)), op))
    case Claim(id) => Some(Ledger.Claim(id))
    case Read(id) => Some(Ledger.Read(id))
    case Finalize(id) =>
      if id in s.workers && s.workers[id].pc.Finalizing? then Some(Ledger.Finalize(id, s.workers[id].pc.reply)) else None
    case Commit(id) => Some(Ledger.Commit(id))
    case Fail(id) => Some(Ledger.Fail(id))
    case Crash(id) => Some(Ledger.Crash(id))
    case Stamp(id) => Some(Ledger.Stamp(id))
    case _ => None
  }

  ghost predicate Enabled(s: State, a: Action) {
    && (OnLedger(s, a).Some? ==> Ledger.Enabled(s.ledger, OnLedger(s, a).value))
    && match a
       case Begin(id, op, _) => id !in s.workers && Callable(op)
       case Body(id) =>
         && id in s.workers && InBody(s.workers[id].pc) && PcFits(s.workers[id].op, s.workers[id].pc)
         && (s.workers[id].pc.TakeAdvisory? ==> WindowKnown(s.workers[id].op))
         && FreeOf(s, id, Needs(s.advisory, s.tables, s.workers[id]))
       case Finalize(id) => id in s.workers && s.workers[id].pc.Finalizing?
       case ChangeOrder(index, order) => OrderChange(s.tables.orders, index, order)
       case ChangeIncentive(index, incentive) =>
         && IncentiveChange(s.tables.incentives, index, incentive)
         && forall j | j in s.workers :: IncentiveRow(index) !in s.workers[j].locks
       case _ => a.id in s.workers
  }

  /** Where a claim or the read after a conflict leaves the transaction. */
  function AfterClaim(w: Worker, phase: Ledger.Phase<Reply>): Worker {
    if phase.Working? then w.(pc := FirstPc(w.op))
    else if phase.Refused? then Cleared(w)
    else w
  }

  ghost function Do(s: State, a: Action): State
    requires Enabled(s, a)
  {
    var l := OnLedger(s, a);
    var s1 := if l.Some? then s.(ledger := Ledger.Do(s.ledger, l.value)) else s;
    match a
    case Begin(id, op, _) => s1.(workers := s.workers[id := Worker(op, Claiming, {}, map[], {}, {}, NO_HISTORY)])
    case Claim(id) => s1.(workers := s.workers[id := AfterClaim(s.workers[id], s1.ledger.runs[id].phase)])
    case Read(id) => s1.(workers := s.workers[id := AfterClaim(s.workers[id], s1.ledger.runs[id].phase)])
    case Body(id) =>
      s1.(workers := s.workers[id := Execute(s.advisory, s.tables, s.workers[id])],
          tables := if s.workers[id].pc.InsertPayout? then s.tables.(nextId := s.tables.nextId + 1) else s.tables)
    case Finalize(id) => s1.(workers := s.workers[id := s.workers[id].(pc := Committing)])
    case Commit(id) =>
      s1.(tables := Committed(s.tables, s.workers[id]), workers := s.workers[id := Cleared(s.workers[id])])
    case Fail(id) => s1.(workers := s.workers[id := Cleared(s.workers[id])])
    case Crash(id) => s1.(workers := s.workers[id := Cleared(s.workers[id])])
    case Stamp(id) => s1
    case ChangeOrder(index, order) =>
      s1.(tables := Reordered(s.tables, index, order),
          workers := map j | j in s.workers :: Delayed(s.workers[j], s.tables.orders, index, order))
    case ChangeIncentive(index, incentive) =>
      s1.(tables := Reincentivised(s.tables, index, incentive),
          workers := map j | j in s.workers :: Drifted(s.workers[j], s.tables.incentives, index, incentive))
  }

  function Init(advisory: bool): State {
    State(advisory, Tables([], [], map[], 0, map[]), Ledger.Init(), map[])
  }

  ghost predicate CanRun(s: State, acts: seq<Action>)
    decreases |acts|
  {
    acts != [] ==> Enabled(s, acts[0]) && CanRun(Do(s, acts[0]), acts[1..])
  }

  ghost function Run(s: State, acts: seq<Action>): State
    requires CanRun(s, acts)
    decreases |acts|
  {
    if acts == [] then s else Run(Do(s, acts[0]), acts[1..])
  }
}

/** What holds in every reachable state of the settlement machine, over every interleaving. */
module SettlementSafety {
  import opened Prelude
  import opened Periods
  import opened Settlement
  import Ledger

  // ---------------------------------------------------------------- sums

  lemma {:induction false} SumSame(a: seq<Incentive>, b: seq<Incentive>, chosen: set<nat>)
    requires |a| <= |b|
    requires forall i | i in chosen :: i < |a| && a[i].amount == b[i].amount
    ensures SumAmounts(a, chosen) == SumAmounts(b, chosen)
    decreases |b|
  {
    if |a| < |b| {
      SumSame(a, b[..|b| - 1], chosen);
    } else if b != [] {
      SumIgnoresTail(a, chosen);
      SumIgnoresTail(b, chosen);
      var inner := chosen - {|b| - 1};
      SumSame(a[..|a| - 1], b[..|b| - 1], inner);
    }
  }

  /** The sum of the prefix does not see the last index. */
  lemma SumIgnoresTail(a: seq<Incentive>, chosen: set<nat>)
    requires a != []
    ensures SumAmounts(a[..|a| - 1], chosen) == SumAmounts(a[..|a| - 1], chosen - {|a| - 1})
  {
    SumAgree(a[..|a| - 1], chosen, chosen - {|a| - 1});
  }

  lemma {:induction false} SumAgree(a: seq<Incentive>, s: set<nat>, t: set<nat>)
    requires forall i: nat | i < |a| :: i in s <==> i in t
    ensures SumAmounts(a, s) == SumAmounts(a, t)
  {
    if a != [] {
      SumAgree(a[..|a| - 1], s, t);
    }
  }

  function AmountIn(a: seq<Incentive>, chosen: set<nat>, k: nat): int {
    if k < |a| && k in chosen then a[k].amount else 0
  }

  /** Changing (or appending) one row, and whether it is chosen, changes the sum by the difference at that row. */
  lemma {:induction false} SumAtPoint(a: seq<Incentive>, b: seq<Incentive>, s: set<nat>, t: set<nat>, k: nat)
    requires k <= |a| && |b| == (if k < |a| then |a| else |a| + 1)
    requires forall i: nat | i < |a| && i != k :: a[i] == b[i] && (i in s <==> i in t)
    ensures SumAmounts(b, t) == SumAmounts(a, s) + AmountIn(b, t, k) - AmountIn(a, s, k)
    decreases |b|
  {
    if k == |b| - 1 {
      var n := |b| - 1;
      assert b[..n] == a[..n];
      SumAgree(b[..n], s, t);
      if k == |a| {
        assert a[..n] == a;
      }
    } else {
      SumAtPoint(a[..|a| - 1], b[..|b| - 1], s, t, k);
    }
  }

  // ---------------------------------------------------------------- fees

  /** What the driver has earned in the window: order by order, the fee of each one delivered in it by that driver. */
  function Earned(orders: seq<Order>, driver: int, window: Window): int {
    if orders == [] then 0 else Earned(orders[..|orders| - 1], driver, window) + FeeIn(orders[|orders| - 1], driver, window)
  }

  lemma {:induction false} FeesAgree(orders: seq<Order>, s: set<nat>, t: set<nat>)
    requires forall i: nat | i < |orders| :: i in s <==> i in t
    ensures SumFeesOf(orders, s) == SumFeesOf(orders, t)
  {
    if orders != [] {
      FeesAgree(orders[..|orders| - 1], s, t);
    }
  }

  /** The SUM of the filtered rows is what the driver has earned. */
  lemma {:induction false} SumIsEarned(orders: seq<Order>, driver: int, window: Window)
    ensures SumFeesOf(orders, Deliveries(orders, driver, window)) == Earned(orders, driver, window)
  {
    if orders != [] {
      var rest := orders[..|orders| - 1];
      SumIsEarned(rest, driver, window);
      FeesAgree(rest, Deliveries(orders, driver, window), Deliveries(rest, driver, window));
    }
  }

  lemma {:induction false} EarnedAfterPut(orders: seq<Order>, index: nat, order: Order, driver: int, window: Window)
    requires index <= |orders|
    ensures Earned(PutOrder(orders, index, order), driver, window) ==
            Earned(orders, driver, window) + LateFee(orders, index, order, driver, window)
  {
    var put, n := PutOrder(orders, index, order), |orders| - 1;
    if index == |orders| {
      assert put[..index] == orders;
    } else if index == n {
      assert put[..n] == orders[..n];
    } else {
      assert put[..n] == PutOrder(orders[..n], index, order);
      EarnedAfterPut(orders[..n], index, order, driver, window);
    }
  }

  // ---------------------------------------------------------------- the tables

  ghost predicate IsWindow(w: Window) { exists m, y :: HasWindow(m, y) && WindowOf(m, y) == w }

  lemma WindowsApart(v: Window, w: Window)
    requires IsWindow(v) && IsWindow(w)
    ensures v == w || Disjoint(v, w)
  {
    var m1, y1 :| HasWindow(m1, y1) && WindowOf(m1, y1) == v;
    var m2, y2 :| HasWindow(m2, y2) && WindowOf(m2, y2) == w;
    EqualOrDisjoint(m1, y1, m2, y2);
  }

  ghost predicate IsCounted(orders: seq<Order>, o: nat, driver: int, window: Window) {
    o < |orders| && orders[o].driver == driver && orders[o].deliveredAt.Some? && Contains(window, orders[o].deliveredAt.value)
  }

  /** The base is what the driver had earned when the fees were summed, and with the late fees what it is now. */
  ghost predicate BaseOk(t: Tables, h: History, base: int, driver: int, window: Window) {
    && base == Earned(h.read, driver, window)
    && base + h.late == Earned(t.orders, driver, window)
    && |h.read| <= |t.orders|
    && (forall o: nat {:trigger IsCounted(t.orders, o, driver, window)}
          | o < |h.read| && IsDelivery(h.read[o], driver, window) :: IsCounted(t.orders, o, driver, window))
  }

  ghost predicate PayoutOk(t: Tables, id: nat)
    requires id in t.payouts && id in t.past
  {
    var p, h := t.payouts[id], t.past[id];
    && id < t.nextId
    && IsWindow(p.window)
    && p.total == p.base + p.bonus
    && BaseOk(t, h, p.base, p.driver, p.window)
    && p.bonus + h.drift == SumAmounts(t.incentives, Linked(t.incentives, id))
    && Eligible(t.incentives, p.driver, p.window) <= h.edited
    && (p.status.Pending? <==> p.approvedBy.None?)
    && (p.status.Completed? <==> p.payment.Some?)
  }

  ghost predicate IncentiveOk(t: Tables, i: Incentive) {
    i.settlement.Some? ==>
      && i.settlement.value in t.payouts
      && i.driver == t.payouts[i.settlement.value].driver
      && Contains(t.payouts[i.settlement.value].window, i.earnedAt)
      && i.status == if t.payouts[i.settlement.value].status.Completed? then Paid else Approved
  }

  ghost predicate OnePerWindow(payouts: map<nat, Payout>) {
    forall i, j | i in payouts && j in payouts ::
      payouts[i].driver == payouts[j].driver && payouts[i].window == payouts[j].window ==> i == j
  }

  ghost predicate TablesOk(t: Tables) {
    && t.past.Keys == t.payouts.Keys
    && OnePerWindow(t.payouts)
    && (forall id {:trigger PayoutOk(t, id)} | id in t.payouts :: PayoutOk(t, id))
    && (forall k: nat {:trigger IncentiveOk(t, t.incentives[k])} | k < |t.incentives| :: IncentiveOk(t, t.incentives[k]))
  }

  // ---------------------------------------------------------------- the transactions

  ghost predicate Blank(w: Worker) { w.rows == map[] && w.links == {} && w.pays == {} }

  ghost predicate Idle(w: Worker) { w.locks == {} && Blank(w) }

  ghost predicate LocksHeld(t: Tables, w: Worker) {
    && (forall i | i in w.rows :: PayoutRow(i) in w.locks)
    && (forall i | i in w.links || i in w.pays :: i < |t.incentives| && IncentiveRow(i) in w.locks)
    && (forall i: nat | PayoutRow(i) in w.locks :: i < t.nextId)
  }

  /** The row a generate transaction has inserted, under the unique index entry of its window. */
  ghost predicate NewRow(t: Tables, w: Worker, id: nat)
    requires w.op.Generate? && WindowKnown(w.op)
  {
    && w.rows.Keys == {id} && id !in t.payouts && id < t.nextId
    && WindowEntry(w.op.driver, OpWindow(w.op)) in w.locks
    && Settled(t.payouts, w.op.driver, OpWindow(w.op)) == {}
    && var p := w.rows[id];
       p == Payout(w.op.driver, OpWindow(w.op), p.base, p.bonus, p.base + p.bonus, Pending, None, None) &&
       BaseOk(t, w.past, p.base, w.op.driver, OpWindow(w.op))
  }

  ghost predicate LinksOk(t: Tables, w: Worker, id: nat)
    requires w.op.Generate? && WindowKnown(w.op) && id in w.rows
  {
    && (forall i | i in w.links :: i < |t.incentives| && IsEligible(t.incentives[i], w.op.driver, OpWindow(w.op)))
    && w.rows[id].bonus + w.past.drift == SumAmounts(t.incentives, w.links)
    && Eligible(t.incentives, w.op.driver, OpWindow(w.op)) - w.links <= w.past.edited
  }

  predicate Active(w: Worker) { !w.pc.Claiming? && !w.pc.TakeAdvisory? && !w.pc.Over? }

  predicate BeforeInsert(pc: Pc) { pc.SumFees? || pc.SumBonus? || pc.InsertPayout? }

  ghost predicate GenerateOk(advisory: bool, t: Tables, w: Worker)
    requires w.op.Generate?
  {
    (w.pc.TakeAdvisory? ==> Blank(w)) && (w.pc.Claiming? || w.pc.Over? ==> Idle(w)) &&
    (Active(w) ==>
      && WindowKnown(w.op)
      && w.pays == {}
      && (w.pc.SumBonus? || w.pc.InsertPayout? ==> BaseOk(t, w.past, w.pc.base, w.op.driver, OpWindow(w.op)))
      && (advisory ==> Advisory(w.op.driver, OpWindow(w.op)) in w.locks && !w.pc.ReadBack? &&
                       (BeforeInsert(w.pc) ==> Settled(t.payouts, w.op.driver, OpWindow(w.op)) == {}))
      && (w.pc.FindWindow? || BeforeInsert(w.pc) || w.pc.ReadBack? ==> w.rows == map[])
      && (w.rows == map[] ==> w.links == {} && !w.pc.LinkIncentives?)
      && (w.pc.InsertPayout? && Settled(t.payouts, w.op.driver, OpWindow(w.op)) == {} ==>
            w.pc.bonus + w.past.drift == SumAmounts(t.incentives, Eligible(t.incentives, w.op.driver, OpWindow(w.op))))
      && (w.rows != map[] ==> NewRow(t, w, NewId(w)))
      && (w.pc.LinkIncentives? ==>
            && w.pc.id == NewId(w) && w.links == {}
            && w.rows[w.pc.id].bonus + w.past.drift == SumAmounts(t.incentives, Eligible(t.incentives, w.op.driver, OpWindow(w.op))))
      && (w.rows != map[] && !w.pc.LinkIncentives? ==> LinksOk(t, w, NewId(w))))
  }

  ghost predicate ApproveOk(t: Tables, w: Worker)
    requires w.op.Approve?
  {
    && w.links == {} && w.pays == {}
    && (w.pc.Claiming? || w.pc.Over? ==> Idle(w))
    && (w.pc.FindForApproval? ==> w.rows == map[])
    && (w.pc.MarkApproved? ==> w.rows == map[] && PayoutRow(w.op.payout) in w.locks && w.op.payout in t.payouts &&
                               t.payouts[w.op.payout].status.Pending?)
    && (w.rows != map[] ==>
          && w.op.payout in t.payouts && t.payouts[w.op.payout].status.Pending?
          && w.rows == map[w.op.payout := t.payouts[w.op.payout].(status := Authorised, approvedBy := Some(w.op.approver))])
  }

  ghost predicate ProcessOk(t: Tables, w: Worker)
    requires w.op.Process?
  {
    && w.links == {}
    && (w.pc.Claiming? || w.pc.Over? ==> Idle(w))
    && (w.pc.FindForPayment? ==> w.rows == map[])
    && (w.pc.MarkCompleted? ==> w.rows == map[] && PayoutRow(w.op.payout) in w.locks && w.op.payout in t.payouts &&
                                t.payouts[w.op.payout].status.Authorised?)
    && (w.rows == map[] ==> w.pays == {} && !w.pc.PayIncentives?)
    && (w.rows != map[] ==>
          && w.op.payout in t.payouts && t.payouts[w.op.payout].status.Authorised?
          && w.rows == map[w.op.payout := t.payouts[w.op.payout].(status := Completed, payment := Some(w.op.payment))]
          && w.pays == if w.pc.PayIncentives? then {} else Linked(t.incentives, w.op.payout))
  }

  ghost predicate WorkerOk(advisory: bool, t: Tables, w: Worker) {
    && PcFits(w.op, w.pc)
    && LocksHeld(t, w)
    && match w.op
       case Generate(_, _, _) => GenerateOk(advisory, t, w)
       case Approve(_, _) => ApproveOk(t, w)
       case Process(_, _) => ProcessOk(t, w)
  }

  /** The transaction is where its ledger row says it is. */
  ghost predicate InStep(w: Worker, run: Ledger.Attempt<Key, Op, Reply>) {
    && run.hash == w.op && Callable(w.op)
    && (run.key.Some? ==> run.key.value.scope == ScopeOf(w.op))
    && match run.phase
       case Ready | Conflicted | Replaying(_) => w.pc.Claiming?
       case Working => InBody(w.pc) || w.pc.Finalizing?
       case Finalized(_) => w.pc.Committing?
       case _ => w.pc.Over?
  }

  ghost predicate LocksApart(workers: map<nat, Worker>) {
    forall i, j | i in workers && j in workers && i != j :: workers[i].locks !! workers[j].locks
  }

  ghost predicate InSteps(s: State) {
    && s.ledger.runs.Keys == s.workers.Keys
    && forall j {:trigger InStep(s.workers[j], s.ledger.runs[j])} | j in s.workers :: InStep(s.workers[j], s.ledger.runs[j])
  }

  ghost predicate WorkersOk(s: State) {
    forall j {:trigger WorkerOk(s.advisory, s.tables, s.workers[j])} | j in s.workers ::
      WorkerOk(s.advisory, s.tables, s.workers[j])
  }

  ghost predicate Inv(s: State) {
    Ledger.Inv(s.ledger) && InSteps(s) && LocksApart(s.workers) && TablesOk(s.tables) && WorkersOk(s)
  }

  // ---------------------------------------------------------------- commit

  lemma NewIdIs(w: Worker, id: nat)
    requires w.rows.Keys == {id}
    ensures NewId(w) == id
  {
  }

  lemma NothingWritten(t: Tables, w: Worker)
    requires w.rows == map[] && w.links == {} && w.pays == {}
    ensures Committed(t, w) == t
  {
    assert WrittenAll(t.incentives, w) == t.incentives;
    assert t.payouts + w.rows == t.payouts;
    assert w.rows.Keys - t.payouts.Keys == {};
  }

  /** What committing a transaction that inserted payout `id` does to the tables. */
  ghost predicate Inserted(t: Tables, u: Tables, w: Worker, id: nat)
    requires id in w.rows
  {
    && u.orders == t.orders && u.nextId == t.nextId
    && u.payouts == t.payouts[id := w.rows[id]]
    && u.past == t.past[id := w.past]
    && |u.incentives| == |t.incentives|
    && forall k: nat | k < |t.incentives| ::
         u.incentives[k] == if k in w.links then t.incentives[k].(settlement := Some(id)) else t.incentives[k]
  }

  /** What committing a transaction that updated payout `id`, and paid some incentives, does to the tables. */
  ghost predicate Updated(t: Tables, u: Tables, w: Worker, id: nat)
    requires id in w.rows
  {
    && u.orders == t.orders && u.nextId == t.nextId && u.past == t.past
    && u.payouts == t.payouts[id := w.rows[id]]
    && |u.incentives| == |t.incentives|
    && forall k: nat | k < |t.incentives| ::
         u.incentives[k] == if k in w.pays then t.incentives[k].(status := Paid) else t.incentives[k]
  }

  lemma CommitInserts(t: Tables, w: Worker, id: nat)
    requires w.rows.Keys == {id} && id !in t.payouts && w.pays == {}
    ensures Inserted(t, Committed(t, w), w, id)
  {
    NewIdIs(w, id);
    assert w.rows.Keys - t.payouts.Keys == {id};
  }

  lemma CommitUpdates(t: Tables, w: Worker, id: nat)
    requires w.rows.Keys == {id} && id in t.payouts && w.links == {}
    ensures Updated(t, Committed(t, w), w, id)
  {
    assert w.rows.Keys - t.payouts.Keys == {};
    assert (map i | i in w.rows.Keys - t.payouts.Keys :: w.past) == map[];
  }

  /** An old payout keeps its links and its sum when other rows are linked or paid. */
  lemma PayoutKept(t: Tables, u: Tables, j: nat)
    requires j in t.payouts && j in t.past && PayoutOk(t, j)
    requires j in u.payouts && j in u.past && u.nextId == t.nextId && u.orders == t.orders && u.past[j] == t.past[j]
    requires u.payouts[j] == t.payouts[j].(status := u.payouts[j].status, approvedBy := u.payouts[j].approvedBy,
                                           payment := u.payouts[j].payment)
    requires u.payouts[j].status.Pending? <==> u.payouts[j].approvedBy.None?
    requires u.payouts[j].status.Completed? <==> u.payouts[j].payment.Some?
    requires |u.incentives| == |t.incentives|
    requires forall k: nat | k < |t.incentives| ::
               u.incentives[k].amount == t.incentives[k].amount &&
               (u.incentives[k].settlement == Some(j) <==> t.incentives[k].settlement == Some(j)) &&
               (u.incentives[k] == t.incentives[k] || u.incentives[k].settlement.Some?)
    ensures PayoutOk(u, j)
  {
    assert Linked(u.incentives, j) == Linked(t.incentives, j);
    SumSame(t.incentives, u.incentives, Linked(t.incentives, j));
  }

  lemma InsertedPayoutOk(t: Tables, u: Tables, w: Worker, id: nat)
    requires TablesOk(t) && w.op.Generate? && WindowKnown(w.op) && NewRow(t, w, id) && LinksOk(t, w, id)
    requires Inserted(t, u, w, id)
    ensures PayoutOk(u, id)
  {
    assert IsWindow(w.rows[id].window) by {
      assert HasWindow(w.op.month, w.op.year);
    }
    assert Linked(u.incentives, id) == w.links by {
      forall k: nat | k < |t.incentives| && k !in w.links ensures u.incentives[k].settlement != Some(id) {
        assert IncentiveOk(t, t.incentives[k]);
      }
    }
    SumSame(t.incentives, u.incentives, w.links);
  }

  lemma InsertedOnePerWindow(t: Tables, u: Tables, w: Worker, id: nat)
    requires OnePerWindow(t.payouts) && w.op.Generate? && WindowKnown(w.op) && NewRow(t, w, id)
    requires u.payouts == t.payouts[id := w.rows[id]]
    ensures OnePerWindow(u.payouts)
  {
    forall j | j in t.payouts ensures !SettledBy(t.payouts[j], w.op.driver, OpWindow(w.op)) {
      assert j !in Settled(t.payouts, w.op.driver, OpWindow(w.op));
    }
  }

  lemma InsertedIncentivesOk(t: Tables, u: Tables, w: Worker, id: nat, k: nat)
    requires TablesOk(t) && w.op.Generate? && WindowKnown(w.op) && NewRow(t, w, id) && LinksOk(t, w, id)
    requires Inserted(t, u, w, id) && k < |t.incentives|
    ensures IncentiveOk(u, u.incentives[k])
  {
    assert IncentiveOk(t, t.incentives[k]);
    assert k in w.links ==> IsEligible(t.incentives[k], w.op.driver, OpWindow(w.op));
  }

  lemma InsertedKeeps(t: Tables, u: Tables, w: Worker, id: nat, j: nat)
    requires TablesOk(t) && j in t.payouts && id in w.rows && id !in t.payouts && Inserted(t, u, w, id)
    requires forall k | k in w.links :: k < |t.incentives| && t.incentives[k].settlement.None?
    ensures PayoutOk(u, j)
  {
    assert PayoutOk(t, j);
    PayoutKept(t, u, j);
  }

  lemma InsertedPayoutsOk(t: Tables, u: Tables, w: Worker, id: nat)
    requires TablesOk(t) && w.op.Generate? && WindowKnown(w.op) && NewRow(t, w, id) && LinksOk(t, w, id)
    requires Inserted(t, u, w, id)
    ensures forall j {:trigger PayoutOk(u, j)} | j in u.payouts :: PayoutOk(u, j)
  {
    InsertedPayoutOk(t, u, w, id);
    forall j | j in t.payouts ensures PayoutOk(u, j) {
      InsertedKeeps(t, u, w, id, j);
    }
  }

  lemma InsertedTablesOk(t: Tables, u: Tables, w: Worker, id: nat)
    requires TablesOk(t) && w.op.Generate? && WindowKnown(w.op) && NewRow(t, w, id) && LinksOk(t, w, id)
    requires Inserted(t, u, w, id)
    ensures TablesOk(u)
  {
    InsertedPayoutsOk(t, u, w, id);
    InsertedOnePerWindow(t, u, w, id);
    forall k: nat | k < |u.incentives| ensures IncentiveOk(u, u.incentives[k]) {
      InsertedIncentivesOk(t, u, w, id, k);
    }
  }

  /** The two ways a committed payout row changes. */
  ghost predicate Moved(t: Tables, w: Worker, id: nat)
    requires id in w.rows && id in t.payouts
  {
    match w.op
    case Generate(_, _, _) => false
    case Approve(_, approver) =>
      w.pays == {} && t.payouts[id].status.Pending? &&
      w.rows[id] == t.payouts[id].(status := Authorised, approvedBy := Some(approver))
    case Process(_, payment) =>
      w.pays == Linked(t.incentives, id) && t.payouts[id].status.Authorised? &&
      w.rows[id] == t.payouts[id].(status := Completed, payment := Some(payment))
  }

  lemma UpdatedIncentivesOk(t: Tables, u: Tables, w: Worker, id: nat, k: nat)
    requires k < |t.incentives| == |u.incentives| && IncentiveOk(t, t.incentives[k])
    requires id in w.rows && id in t.payouts && Moved(t, w, id) && u.payouts == t.payouts[id := w.rows[id]]
    requires u.incentives[k] == if k in w.pays then t.incentives[k].(status := Paid) else t.incentives[k]
    ensures IncentiveOk(u, u.incentives[k])
  {
  }

  lemma UpdatedKeeps(t: Tables, u: Tables, w: Worker, id: nat, j: nat)
    requires TablesOk(t) && j in t.payouts && id in w.rows && id in t.payouts && Updated(t, u, w, id) && Moved(t, w, id)
    ensures PayoutOk(u, j)
  {
    assert PayoutOk(t, j) && PayoutOk(t, id);
    PayoutKept(t, u, j);
  }

  lemma UpdatedOnePerWindow(payouts: map<nat, Payout>, id: nat, p: Payout)
    requires OnePerWindow(payouts) && id in payouts && p.driver == payouts[id].driver && p.window == payouts[id].window
    ensures OnePerWindow(payouts[id := p])
  {
  }

  lemma UpdatedTablesOk(t: Tables, u: Tables, w: Worker, id: nat)
    requires TablesOk(t) && id in w.rows && id in t.payouts && Updated(t, u, w, id) && Moved(t, w, id)
    ensures TablesOk(u)
  {
    UpdatedOnePerWindow(t.payouts, id, w.rows[id]);
    forall j | j in u.payouts ensures PayoutOk(u, j) {
      UpdatedKeeps(t, u, w, id, j);
    }
    forall k: nat | k < |u.incentives| ensures IncentiveOk(u, u.incentives[k]) {
      assert IncentiveOk(t, t.incentives[k]);
      UpdatedIncentivesOk(t, u, w, id, k);
    }
  }

  lemma CommitTablesOk(advisory: bool, t: Tables, w: Worker)
    requires TablesOk(t) && WorkerOk(advisory, t, w) && (w.pc.Committing? || w.pc.Claiming?)
    ensures TablesOk(Committed(t, w))
  {
    if w.rows == map[] {
      NothingWritten(t, w);
    } else if w.op.Generate? {
      var id := NewId(w);
      CommitInserts(t, w, id);
      InsertedTablesOk(t, Committed(t, w), w, id);
    } else {
      CommitUpdates(t, w, w.op.payout);
      UpdatedTablesOk(t, Committed(t, w), w, w.op.payout);
    }
  }

  // ---------------------------------------------------------------- the other transactions during a commit

  lemma EligibleAfterUpdate(t: Tables, u: Tables, w: Worker, id: nat, driver: int, window: Window)
    requires id in w.rows && id in t.payouts && Updated(t, u, w, id)
    requires forall k | k in w.pays :: k < |t.incentives| && t.incentives[k].settlement.Some?
    ensures Eligible(u.incentives, driver, window) == Eligible(t.incentives, driver, window)
    ensures SumAmounts(u.incentives, Eligible(u.incentives, driver, window)) ==
            SumAmounts(t.incentives, Eligible(t.incentives, driver, window))
  {
    SumSame(t.incentives, u.incentives, Eligible(t.incentives, driver, window));
  }

  lemma EligibleAfterInsert(t: Tables, u: Tables, w: Worker, id: nat, driver: int, window: Window)
    requires w.op.Generate? && WindowKnown(w.op) && id in w.rows && Inserted(t, u, w, id) && LinksOk(t, w, id)
    requires IsWindow(window) && !(driver == w.op.driver && window == OpWindow(w.op))
    ensures Eligible(u.incentives, driver, window) == Eligible(t.incentives, driver, window)
    ensures SumAmounts(u.incentives, Eligible(u.incentives, driver, window)) ==
            SumAmounts(t.incentives, Eligible(t.incentives, driver, window))
  {
    OpWindowIsWindow(w.op);
    WindowsApart(window, OpWindow(w.op));
    forall k: nat | k < |t.incentives|
      ensures IsEligible(u.incentives[k], driver, window) == IsEligible(t.incentives[k], driver, window)
    {
      assert k in w.links ==> IsEligible(t.incentives[k], w.op.driver, OpWindow(w.op));
    }
    SumSame(t.incentives, u.incentives, Eligible(t.incentives, driver, window));
  }

  lemma OpWindowIsWindow(op: Op)
    requires op.Generate? && WindowKnown(op)
    ensures IsWindow(OpWindow(op))
  {
    assert HasWindow(op.month, op.year);
  }

  lemma SettledAfterPut(payouts: map<nat, Payout>, id: nat, p: Payout, driver: int, window: Window)
    requires id in payouts ==> payouts[id].driver == p.driver && payouts[id].window == p.window
    ensures Settled(payouts[id := p], driver, window) ==
            Settled(payouts, driver, window) + if SettledBy(p, driver, window) then {id} else {}
  {
  }

  /** A generate transaction is not disturbed by another generate transaction that commits a new payout. */
  lemma GenerateBesideInsert(advisory: bool, t: Tables, u: Tables, w: Worker, id: nat, v: Worker)
    requires v.op.Generate? && LocksHeld(t, v) && GenerateOk(advisory, t, v)
    requires w.op.Generate? && WindowKnown(w.op) && NewRow(t, w, id) && LinksOk(t, w, id) && LocksHeld(t, w)
    requires advisory ==> Advisory(w.op.driver, OpWindow(w.op)) in w.locks
    requires Inserted(t, u, w, id) && v.locks !! w.locks
    ensures GenerateOk(advisory, u, v)
  {
    hide IsEligible, IsWindow, Earned;
    if !Active(v) {
      return;
    }
    var d, win := v.op.driver, OpWindow(v.op);
    SettledAfterPut(t.payouts, id, w.rows[id], d, win);
    OpWindowIsWindow(v.op);
    if !(d == w.op.driver && win == OpWindow(w.op)) {
      EligibleAfterInsert(t, u, w, id, d, win);
    }
    if v.rows != map[] {
      LinksBesideCommit(t, u, w, v, NewId(v));
    }
  }

  /** The incentives a transaction has claimed are locked, so nobody else's commit touches them. */
  lemma LinksBesideCommit(t: Tables, u: Tables, w: Worker, v: Worker, id: nat)
    requires v.op.Generate? && WindowKnown(v.op) && id in v.rows && LocksHeld(t, v) && LocksHeld(t, w)
    requires v.locks !! w.locks && |u.incentives| == |t.incentives|
    requires forall k: nat | k < |t.incentives| && k !in w.links && k !in w.pays :: u.incentives[k] == t.incentives[k]
    requires forall k: nat | k < |t.incentives| :: u.incentives[k] == t.incentives[k] || u.incentives[k].settlement.Some?
    ensures LinksOk(t, v, id) ==> LinksOk(u, v, id)
  {
    forall k | k in v.links ensures u.incentives[k] == t.incentives[k] {
      assert IncentiveRow(k) in v.locks;
    }
    SumSame(t.incentives, u.incentives, v.links);
    assert Eligible(u.incentives, v.op.driver, OpWindow(v.op)) <= Eligible(t.incentives, v.op.driver, OpWindow(v.op));
  }

  lemma GenerateBesideUpdate(advisory: bool, t: Tables, u: Tables, w: Worker, id: nat, v: Worker)
    requires v.op.Generate? && LocksHeld(t, v) && GenerateOk(advisory, t, v)
    requires id in w.rows && id in t.payouts && Updated(t, u, w, id) && w.links == {} && LocksHeld(t, w)
    requires w.rows[id].driver == t.payouts[id].driver && w.rows[id].window == t.payouts[id].window
    requires forall k | k in w.pays :: k < |t.incentives| && t.incentives[k].settlement.Some?
    requires v.locks !! w.locks
    ensures GenerateOk(advisory, u, v)
  {
    if !Active(v) {
      return;
    }
    SettledAfterPut(t.payouts, id, w.rows[id], v.op.driver, OpWindow(v.op));
    EligibleAfterUpdate(t, u, w, id, v.op.driver, OpWindow(v.op));
    if v.rows != map[] {
      LinksBesideCommit(t, u, w, v, NewId(v));
    }
  }

  lemma ApproveBesideCommit(t: Tables, u: Tables, w: Worker, id: nat, v: Worker)
    requires v.op.Approve? && LocksHeld(t, v) && ApproveOk(t, v)
    requires id in w.rows && u.payouts == t.payouts[id := w.rows[id]] && LocksHeld(t, w) && v.locks !! w.locks
    ensures ApproveOk(u, v)
  {
    if v.rows != map[] || v.pc.MarkApproved? {
      assert PayoutRow(v.op.payout) in v.locks;
      assert PayoutRow(id) in w.locks;
    }
  }

  lemma ProcessBesideCommit(t: Tables, u: Tables, w: Worker, id: nat, v: Worker)
    requires v.op.Process? && LocksHeld(t, v) && ProcessOk(t, v)
    requires id in w.rows && u.payouts == t.payouts[id := w.rows[id]] && LocksHeld(t, w) && v.locks !! w.locks
    requires |u.incentives| == |t.incentives|
    requires forall j, k: nat | j != id && k < |t.incentives| ::
               u.incentives[k].settlement == Some(j) <==> t.incentives[k].settlement == Some(j)
    ensures ProcessOk(u, v)
  {
    if v.rows != map[] || v.pc.MarkCompleted? {
      assert PayoutRow(v.op.payout) in v.locks;
      assert PayoutRow(id) in w.locks;
      assert Linked(u.incentives, v.op.payout) == Linked(t.incentives, v.op.payout);
    }
  }

  lemma OthersAfterInsert(advisory: bool, t: Tables, w: Worker, v: Worker, id: nat)
    requires TablesOk(t) && WorkerOk(advisory, t, w) && WorkerOk(advisory, t, v) && v.locks !! w.locks
    requires w.op.Generate? && w.pc.Committing? && w.rows != map[] && id == NewId(w)
    ensures WorkerOk(advisory, Committed(t, w), v)
  {
    var u := Committed(t, w);
    CommitInserts(t, w, id);
    assert LocksHeld(u, v);
    match v.op
    case Generate(_, _, _) => GenerateBesideInsert(advisory, t, u, w, id, v);
    case Approve(_, _) => ApproveBesideCommit(t, u, w, id, v);
    case Process(_, _) =>
      forall k | k in w.links ensures t.incentives[k].settlement.None? {
        assert IsEligible(t.incentives[k], w.op.driver, OpWindow(w.op));
      }
      ProcessBesideCommit(t, u, w, id, v);
  }

  lemma OthersAfterUpdate(advisory: bool, t: Tables, w: Worker, v: Worker)
    requires TablesOk(t) && WorkerOk(advisory, t, w) && WorkerOk(advisory, t, v) && v.locks !! w.locks
    requires !w.op.Generate? && w.pc.Committing? && w.rows != map[]
    ensures WorkerOk(advisory, Committed(t, w), v)
  {
    var u := Committed(t, w);
    CommitUpdates(t, w, w.op.payout);
    assert LocksHeld(u, v);
    match v.op
    case Generate(_, _, _) => GenerateBesideUpdate(advisory, t, u, w, w.op.payout, v);
    case Approve(_, _) => ApproveBesideCommit(t, u, w, w.op.payout, v);
    case Process(_, _) => ProcessBesideCommit(t, u, w, w.op.payout, v);
  }

  lemma OthersAfterCommit(advisory: bool, t: Tables, w: Worker, v: Worker)
    requires TablesOk(t) && WorkerOk(advisory, t, w) && WorkerOk(advisory, t, v) && v.locks !! w.locks
    requires w.pc.Committing? || w.pc.Claiming?
    ensures WorkerOk(advisory, Committed(t, w), v)
  {
    if w.rows == map[] {
      NothingWritten(t, w);
    } else if w.op.Generate? {
      OthersAfterInsert(advisory, t, w, v, NewId(w));
    } else {
      OthersAfterUpdate(advisory, t, w, v);
    }
  }

  // ---------------------------------------------------------------- one statement of a body

  function Bumped(t: Tables): Tables { t.(nextId := t.nextId + 1) }

  lemma BumpKeepsTables(t: Tables)
    requires TablesOk(t)
    ensures TablesOk(Bumped(t))
  {
    forall j | j in t.payouts ensures PayoutOk(Bumped(t), j) {
      assert PayoutOk(t, j);
    }
    forall k: nat | k < |t.incentives| ensures IncentiveOk(Bumped(t), t.incentives[k]) {
      assert IncentiveOk(t, t.incentives[k]);
    }
  }

  lemma BumpKeepsWorker(advisory: bool, t: Tables, v: Worker)
    requires WorkerOk(advisory, t, v)
    ensures WorkerOk(advisory, Bumped(t), v)
  {
    assert LocksHeld(Bumped(t), v);
    match v.op
    case Generate(_, _, _) =>
      if v.rows != map[] {
        assert LinksOk(t, v, NewId(v)) ==> LinksOk(Bumped(t), v, NewId(v));
        assert NewRow(t, v, NewId(v)) ==> NewRow(Bumped(t), v, NewId(v));
      }
      assert GenerateOk(advisory, Bumped(t), v);
    case _ =>
  }

  lemma RowForFinds(t: Tables, driver: int, window: Window)
    ensures RowFor(t.payouts, driver, window).NoRow? <==> Settled(t.payouts, driver, window) == {}
    ensures !RowFor(t.payouts, driver, window).NoRow? ==>
              var r := RowFor(t.payouts, driver, window);
              r.Row? && r.id in t.payouts && r.payout == t.payouts[r.id] && SettledBy(r.payout, driver, window)
  {
  }

  ghost predicate CanExecute(w: Worker) {
    InBody(w.pc) && PcFits(w.op, w.pc) && (w.pc.TakeAdvisory? ==> WindowKnown(w.op))
  }

  function After(t: Tables, w: Worker): Tables { if w.pc.InsertPayout? then Bumped(t) else t }

  function Locked(advisory: bool, t: Tables, w: Worker): Worker
    requires PcFits(w.op, w.pc) && (w.pc.TakeAdvisory? ==> WindowKnown(w.op))
  {
    w.(locks := w.locks + Needs(advisory, t, w))
  }

  lemma LockedOk(advisory: bool, t: Tables, w: Worker)
    requires TablesOk(t) && WorkerOk(advisory, t, w) && CanExecute(w)
    ensures WorkerOk(advisory, t, Locked(advisory, t, w))
  {
    NeedsExist(advisory, t, w);
    var v := Locked(advisory, t, w);
    assert LocksHeld(t, v);
    if w.op.Generate? && w.rows != map[] {
      assert NewId(v) == NewId(w);
      assert NewRow(t, v, NewId(v)) && LinksOk(t, w, NewId(w)) ==> LinksOk(t, v, NewId(v));
    }
  }

  lemma NeedsExist(advisory: bool, t: Tables, w: Worker)
    requires TablesOk(t) && CanExecute(w)
    ensures forall i: nat | PayoutRow(i) in Needs(advisory, t, w) :: i < t.nextId
  {
    forall i: nat | PayoutRow(i) in Needs(advisory, t, w) ensures i < t.nextId {
      assert i in t.payouts;
      assert PayoutOk(t, i);
    }
  }

  lemma InsertStep(advisory: bool, t: Tables, w: Worker)
    requires TablesOk(t) && WorkerOk(advisory, t, w) && w.pc.InsertPayout?
    requires Settled(t.payouts, w.op.driver, OpWindow(w.op)) == {} ==> WindowEntry(w.op.driver, OpWindow(w.op)) in w.locks
    ensures WorkerOk(advisory, Bumped(t), GenerateStep(t, w))
  {
    var v := GenerateStep(t, w);
    if Settled(t.payouts, w.op.driver, OpWindow(w.op)) == {} {
      NewIdIs(v, t.nextId);
      assert t.nextId in t.payouts ==> PayoutOk(t, t.nextId);
      assert NewRow(Bumped(t), v, t.nextId);
    }
  }

  lemma LinkStep(advisory: bool, t: Tables, w: Worker)
    requires WorkerOk(advisory, t, w) && w.pc.LinkIncentives?
    requires forall k | k in Eligible(t.incentives, w.op.driver, OpWindow(w.op)) :: IncentiveRow(k) in w.locks
    ensures WorkerOk(advisory, t, GenerateStep(t, w))
  {
    var v := GenerateStep(t, w);
    NewIdIs(v, w.pc.id);
    assert LocksHeld(t, v);
    assert NewRow(t, v, NewId(v));
    assert LinksOk(t, v, NewId(v));
  }

  lemma SumFeesStep(advisory: bool, t: Tables, w: Worker)
    requires WorkerOk(advisory, t, w) && w.op.Generate? && w.pc.SumFees?
    ensures WorkerOk(advisory, t, GenerateStep(t, w))
  {
    hide Earned, SumFeesOf, Settled, Eligible;
    SumIsEarned(t.orders, w.op.driver, OpWindow(w.op));
    assert LocksHeld(t, GenerateStep(t, w));
    assert BaseOk(t, GenerateStep(t, w).past, GenerateStep(t, w).pc.base, w.op.driver, OpWindow(w.op));
  }

  lemma SumBonusStep(advisory: bool, t: Tables, w: Worker)
    requires WorkerOk(advisory, t, w) && w.op.Generate? && w.pc.SumBonus?
    ensures WorkerOk(advisory, t, GenerateStep(t, w))
  {
    hide Earned, SumAmounts, Settled, Eligible;
    assert LocksHeld(t, GenerateStep(t, w));
    assert BaseOk(t, w.past, w.pc.base, w.op.driver, OpWindow(w.op)) ==>
        BaseOk(t, GenerateStep(t, w).past, w.pc.base, w.op.driver, OpWindow(w.op));
  }

  lemma ReadStep(advisory: bool, t: Tables, w: Worker)
    requires WorkerOk(advisory, t, w) && CanExecute(w) && w.op.Generate?
    requires w.pc.TakeAdvisory? || w.pc.FindWindow? || w.pc.ReadBack?
    requires advisory && w.pc.TakeAdvisory? ==> Advisory(w.op.driver, OpWindow(w.op)) in w.locks
    ensures WorkerOk(advisory, t, GenerateStep(t, w))
  {
    hide BaseOk, SumAmounts, SumFeesOf, Eligible, Deliveries;
    RowForFinds(t, w.op.driver, OpWindow(w.op));
    assert LocksHeld(t, GenerateStep(t, w));
  }

  lemma ExecuteGenerate(advisory: bool, t: Tables, w: Worker)
    requires TablesOk(t) && WorkerOk(advisory, t, w) && CanExecute(w) && w.op.Generate?
    ensures WorkerOk(advisory, After(t, w), Execute(advisory, t, w))
  {
    LockedOk(advisory, t, w);
    if w.pc.InsertPayout? {
      InsertStep(advisory, t, Locked(advisory, t, w));
    } else if w.pc.LinkIncentives? {
      LinkStep(advisory, t, Locked(advisory, t, w));
    } else if w.pc.SumFees? {
      SumFeesStep(advisory, t, Locked(advisory, t, w));
    } else if w.pc.SumBonus? {
      SumBonusStep(advisory, t, Locked(advisory, t, w));
    } else {
      ReadStep(advisory, t, Locked(advisory, t, w));
    }
  }

  lemma ExecuteApprove(advisory: bool, t: Tables, w: Worker)
    requires TablesOk(t) && WorkerOk(advisory, t, w) && CanExecute(w) && w.op.Approve?
    ensures WorkerOk(advisory, t, Execute(advisory, t, w))
  {
    LockedOk(advisory, t, w);
    var v := ApproveStep(t, Locked(advisory, t, w));
    assert LocksHeld(t, v);
    assert ApproveOk(t, v);
  }

  lemma ExecuteProcess(advisory: bool, t: Tables, w: Worker)
    requires TablesOk(t) && WorkerOk(advisory, t, w) && CanExecute(w) && w.op.Process?
    ensures WorkerOk(advisory, t, Execute(advisory, t, w))
  {
    LockedOk(advisory, t, w);
    var v := ProcessStep(t, Locked(advisory, t, w));
    if w.pc.PayIncentives? {
      UnpaidIsLinked(t, w.op.payout);
    }
    assert LocksHeld(t, v);
    assert w.pc.MarkCompleted? ==> v.pc.PayIncentives? && w.op.payout in v.rows;
    assert ProcessOk(t, v);
  }

  /** Until its payout completes, every linked incentive is still to be paid. */
  lemma UnpaidIsLinked(t: Tables, id: nat)
    requires TablesOk(t) && id in t.payouts && !t.payouts[id].status.Completed?
    ensures Unpaid(t.incentives, id) == Linked(t.incentives, id)
  {
    forall k | k in Linked(t.incentives, id) ensures t.incentives[k].status.Approved? {
      assert IncentiveOk(t, t.incentives[k]);
    }
  }

  // ---------------------------------------------------------------- changes made elsewhere

  lemma OrderChangeKeepsBase(t: Tables, u: Tables, index: nat, order: Order, h: History, base: int, driver: int, window: Window)
    requires OrderChange(t.orders, index, order) && u.orders == PutOrder(t.orders, index, order)
    requires BaseOk(t, h, base, driver, window)
    ensures BaseOk(u, h.(late := h.late + LateFee(t.orders, index, order, driver, window)), base, driver, window)
  {
    EarnedAfterPut(t.orders, index, order, driver, window);
    forall o: nat | o < |h.read| && IsDelivery(h.read[o], driver, window) ensures IsCounted(u.orders, o, driver, window) {
      assert IsCounted(t.orders, o, driver, window);
    }
  }

  lemma OrderChangeKeepsTables(t: Tables, index: nat, order: Order)
    requires TablesOk(t) && OrderChange(t.orders, index, order)
    ensures TablesOk(Reordered(t, index, order))
  {
    var u := Reordered(t, index, order);
    forall j | j in t.payouts ensures PayoutOk(u, j) {
      assert PayoutOk(t, j);
      OrderChangeKeepsBase(t, u, index, order, t.past[j], t.payouts[j].base, t.payouts[j].driver, t.payouts[j].window);
    }
    forall k: nat | k < |t.incentives| ensures IncentiveOk(u, t.incentives[k]) {
      assert IncentiveOk(t, t.incentives[k]);
    }
  }

  lemma OrderChangeKeepsWorker(advisory: bool, t: Tables, index: nat, order: Order, v: Worker)
    requires OrderChange(t.orders, index, order) && WorkerOk(advisory, t, v)
    ensures WorkerOk(advisory, Reordered(t, index, order), Delayed(v, t.orders, index, order))
  {
    hide BaseOk;
    var u, x := Reordered(t, index, order), Delayed(v, t.orders, index, order);
    assert LocksHeld(u, x);
    if v.op.Generate? && Active(v) {
      var d, win := v.op.driver, OpWindow(v.op);
      if v.pc.SumBonus? || v.pc.InsertPayout? {
        OrderChangeKeepsBase(t, u, index, order, v.past, v.pc.base, d, win);
      }
      if v.rows != map[] {
        var id := NewId(v);
        assert NewId(x) == id && NewRow(t, v, id);
        OrderChangeKeepsBase(t, u, index, order, v.past, v.rows[id].base, d, win);
        assert LinksOk(t, v, id) ==> LinksOk(u, x, id);
        assert NewRow(u, x, id);
      }
    }
  }

  lemma IncentiveChangeKeepsPayout(t: Tables, index: nat, incentive: Incentive, j: nat)
    requires j in t.payouts && j in t.past && PayoutOk(t, j) && IncentiveChange(t.incentives, index, incentive)
    ensures PayoutOk(Reincentivised(t, index, incentive), j)
  {
    hide Earned, IsWindow, SumAmounts;
    var u, p := Reincentivised(t, index, incentive), t.payouts[j];
    assert Linked(u.incentives, j) == Linked(t.incentives, j);
    SumSame(t.incentives, u.incentives, Linked(t.incentives, j));
    assert BaseOk(u, u.past[j], p.base, p.driver, p.window);
    assert Eligible(u.incentives, p.driver, p.window) <= u.past[j].edited;
  }

  lemma IncentiveChangeKeepsTables(t: Tables, index: nat, incentive: Incentive)
    requires TablesOk(t) && IncentiveChange(t.incentives, index, incentive)
    ensures TablesOk(Reincentivised(t, index, incentive))
  {
    var u := Reincentivised(t, index, incentive);
    forall j | j in t.payouts ensures PayoutOk(u, j) {
      assert PayoutOk(t, j);
      IncentiveChangeKeepsPayout(t, index, incentive, j);
    }
    forall k: nat | k < |u.incentives| ensures IncentiveOk(u, u.incentives[k]) {
      assert k < |t.incentives| ==> IncentiveOk(t, t.incentives[k]);
    }
  }

  lemma IncentiveChangeDrifts(t: Tables, index: nat, incentive: Incentive, driver: int, window: Window)
    requires IncentiveChange(t.incentives, index, incentive)
    ensures var u := PutIncentive(t.incentives, index, incentive);
            SumAmounts(u, Eligible(u, driver, window)) ==
            SumAmounts(t.incentives, Eligible(t.incentives, driver, window)) + EligibleAmount(incentive, driver, window)
            - if index < |t.incentives| then EligibleAmount(t.incentives[index], driver, window) else 0
  {
    var u := PutIncentive(t.incentives, index, incentive);
    SumAtPoint(t.incentives, u, Eligible(t.incentives, driver, window), Eligible(u, driver, window), index);
  }

  lemma IncentiveChangeKeepsLinks(t: Tables, index: nat, incentive: Incentive, v: Worker, id: nat)
    requires IncentiveChange(t.incentives, index, incentive) && LocksHeld(t, v) && IncentiveRow(index) !in v.locks
    requires v.op.Generate? && WindowKnown(v.op) && id in v.rows && LinksOk(t, v, id)
    requires !v.pc.InsertPayout? && !v.pc.LinkIncentives?
    ensures LinksOk(Reincentivised(t, index, incentive), Drifted(v, t.incentives, index, incentive), id)
  {
    var u := Reincentivised(t, index, incentive);
    forall k | k in v.links ensures k != index && u.incentives[k] == t.incentives[k] {
      assert IncentiveRow(k) in v.locks;
    }
    SumSame(t.incentives, u.incentives, v.links);
  }

  lemma IncentiveChangeKeepsGenerate(advisory: bool, t: Tables, index: nat, incentive: Incentive, v: Worker)
    requires IncentiveChange(t.incentives, index, incentive) && LocksHeld(t, v) && IncentiveRow(index) !in v.locks
    requires v.op.Generate? && Active(v) && GenerateOk(advisory, t, v)
    ensures GenerateOk(advisory, Reincentivised(t, index, incentive),
                       Drifted(v, t.incentives, index, incentive))
  {
    var u := Reincentivised(t, index, incentive);
    var v' := Drifted(v, t.incentives, index, incentive);
    IncentiveChangeDrifts(t, index, incentive, v.op.driver, OpWindow(v.op));
    if v.rows != map[] {
      assert NewId(v') == NewId(v);
      assert NewRow(t, v, NewId(v)) ==> NewRow(u, v', NewId(v));
      if !v.pc.LinkIncentives? {
        IncentiveChangeKeepsLinks(t, index, incentive, v, NewId(v));
      }
    }
  }

  lemma IncentiveChangeKeepsWorker(advisory: bool, t: Tables, index: nat, incentive: Incentive, v: Worker)
    requires IncentiveChange(t.incentives, index, incentive) && WorkerOk(advisory, t, v) && IncentiveRow(index) !in v.locks
    ensures WorkerOk(advisory, Reincentivised(t, index, incentive),
                     Drifted(v, t.incentives, index, incentive))
  {
    var u := Reincentivised(t, index, incentive);
    assert LocksHeld(u, Drifted(v, t.incentives, index, incentive));
    if v.op.Generate? && Active(v) {
      IncentiveChangeKeepsGenerate(advisory, t, index, incentive, v);
    } else if v.op.Process? {
      assert Linked(u.incentives, v.op.payout) == Linked(t.incentives, v.op.payout);
    }
  }

  // ---------------------------------------------------------------- every step

  lemma DoKeepsLedger(s: State, a: Action)
    requires Inv(s) && Enabled(s, a)
    ensures Ledger.Inv(Do(s, a).ledger)
  {
    if OnLedger(s, a).Some? {
      Ledger.DoKeepsInv(s.ledger, OnLedger(s, a).value);
    }
  }

  lemma BodyInStep(advisory: bool, t: Tables, w: Worker, run: Ledger.Attempt<Key, Op, Reply>)
    requires CanExecute(w) && InStep(w, run)
    ensures InStep(Execute(advisory, t, w), run)
  {
  }

  lemma ClaimInStep(s: State, a: Action)
    requires Inv(s) && Enabled(s, a) && (a.Claim? || a.Read?)
    ensures InStep(Do(s, a).workers[a.id], Do(s, a).ledger.runs[a.id])
  {
    assert InStep(s.workers[a.id], s.ledger.runs[a.id]);
  }

  lemma FinishInStep(s: State, a: Action)
    requires Inv(s) && Enabled(s, a) && (a.Finalize? || a.Commit?)
    ensures InStep(Do(s, a).workers[a.id], Do(s, a).ledger.runs[a.id])
  {
    assert InStep(s.workers[a.id], s.ledger.runs[a.id]);
  }

  lemma EndInStep(s: State, a: Action)
    requires Inv(s) && Enabled(s, a) && (a.Fail? || a.Crash? || a.Stamp?)
    ensures InStep(Do(s, a).workers[a.id], Do(s, a).ledger.runs[a.id])
  {
    hide TablesOk, WorkersOk, LocksApart;
    assert InStep(s.workers[a.id], s.ledger.runs[a.id]);
  }

  /** The transaction an action belongs to, if it is one of ours. */
  predicate Acts(a: Action, j: nat) { !a.ChangeOrder? && !a.ChangeIncentive? && a.id == j }

  lemma OthersInStep(s: State, a: Action, j: nat)
    requires Inv(s) && Enabled(s, a) && j in s.workers && !Acts(a, j)
    ensures Do(s, a).ledger.runs[j] == s.ledger.runs[j]
    ensures Do(s, a).workers[j].op == s.workers[j].op && Do(s, a).workers[j].pc == s.workers[j].pc
  {
    if OnLedger(s, a).Some? {
      Ledger.OthersStay(s.ledger, OnLedger(s, a).value, j);
    }
  }

  lemma DoKeepsInSteps(s: State, a: Action)
    requires Inv(s) && Enabled(s, a)
    ensures InSteps(Do(s, a))
  {
    var u := Do(s, a);
    forall j | j in u.workers ensures InStep(u.workers[j], u.ledger.runs[j]) {
      if j in s.workers {
        assert InStep(s.workers[j], s.ledger.runs[j]);
        if !Acts(a, j) {
          OthersInStep(s, a, j);
        } else if a.Body? {
          BodyInStep(s.advisory, s.tables, s.workers[j], s.ledger.runs[j]);
        } else if a.Claim? || a.Read? {
          ClaimInStep(s, a);
        } else if a.Finalize? || a.Commit? {
          FinishInStep(s, a);
        } else {
          EndInStep(s, a);
        }
      }
    }
    KeysMatch(s, a);
  }

  lemma KeysMatch(s: State, a: Action)
    requires Inv(s) && Enabled(s, a)
    ensures Do(s, a).ledger.runs.Keys == Do(s, a).workers.Keys
  {
    if OnLedger(s, a).Some? {
      Ledger.KeysAfter(s.ledger, OnLedger(s, a).value);
    }
  }

  lemma ExecuteLocks(advisory: bool, t: Tables, w: Worker)
    requires CanExecute(w)
    ensures Execute(advisory, t, w).locks <= w.locks + Needs(advisory, t, w) + {PayoutRow(t.nextId)}
  {
  }

  lemma BodyKeepsLocksApart(s: State, id: nat)
    requires Inv(s) && Enabled(s, Body(id))
    ensures LocksApart(Do(s, Body(id)).workers)
  {
    ExecuteLocks(s.advisory, s.tables, s.workers[id]);
    forall j | j in s.workers && j != id
      ensures s.workers[j].locks !! Execute(s.advisory, s.tables, s.workers[id]).locks
    {
      assert WorkerOk(s.advisory, s.tables, s.workers[j]);
      assert PayoutRow(s.tables.nextId) !in s.workers[j].locks;
    }
  }

  lemma DoKeepsLocksApart(s: State, a: Action)
    requires Inv(s) && Enabled(s, a)
    ensures LocksApart(Do(s, a).workers)
  {
    hide Ledger.Inv, TablesOk, WorkersOk, InSteps;
    var u := Do(s, a);
    if a.Body? {
      BodyKeepsLocksApart(s, a.id);
    } else {
      forall j | j in u.workers
        ensures if j in s.workers then u.workers[j].locks <= s.workers[j].locks else u.workers[j].locks == {}
      {
      }
    }
  }

  lemma DoKeepsTables(s: State, a: Action)
    requires Inv(s) && Enabled(s, a)
    ensures TablesOk(Do(s, a).tables)
  {
    hide Ledger.Inv, LocksApart, TablesOk, Execute, Needs, Committed;
    match a
    case Body(_) => BumpKeepsTables(s.tables);
    case Commit(id) =>
      assert InStep(s.workers[id], s.ledger.runs[id]) && WorkerOk(s.advisory, s.tables, s.workers[id]);
      CommitTablesOk(s.advisory, s.tables, s.workers[id]);
    case ChangeOrder(index, order) => OrderChangeKeepsTables(s.tables, index, order);
    case ChangeIncentive(index, incentive) => IncentiveChangeKeepsTables(s.tables, index, incentive);
    case _ =>
  }

  lemma BodyDoes(s: State, id: nat)
    requires Enabled(s, Body(id))
    ensures CanExecute(s.workers[id])
    ensures var u := Do(s, Body(id));
            && u.tables == After(s.tables, s.workers[id])
            && u.workers == s.workers[id := Execute(s.advisory, s.tables, s.workers[id])]
  {
    hide Execute, Needs;
  }

  lemma BodyKeepsWorker(s: State, id: nat, j: nat)
    requires Inv(s) && Enabled(s, Body(id)) && j in s.workers
    ensures WorkerOk(s.advisory, Do(s, Body(id)).tables, Do(s, Body(id)).workers[j])
  {
    var w := s.workers[j];
    hide WorkerOk, TablesOk, Execute, Do, Enabled, CanExecute;
    assert WorkerOk(s.advisory, s.tables, w);
    BodyDoes(s, id);
    if j != id {
      BumpKeepsWorker(s.advisory, s.tables, w);
    } else if w.op.Generate? {
      ExecuteGenerate(s.advisory, s.tables, w);
    } else if w.op.Approve? {
      ExecuteApprove(s.advisory, s.tables, w);
    } else {
      ExecuteProcess(s.advisory, s.tables, w);
    }
  }

  lemma ClearedOk(advisory: bool, t: Tables, w: Worker)
    ensures WorkerOk(advisory, t, Cleared(w)) && WorkerOk(advisory, t, Cleared(w).(pc := Claiming))
  {
  }

  lemma CommitKeepsWorker(s: State, id: nat, j: nat)
    requires Inv(s) && Enabled(s, Commit(id)) && j in s.workers
    ensures WorkerOk(s.advisory, Do(s, Commit(id)).tables, Do(s, Commit(id)).workers[j])
  {
    if j == id {
      ClearedOk(s.advisory, Do(s, Commit(id)).tables, s.workers[id]);
    } else {
      assert InStep(s.workers[id], s.ledger.runs[id]);
      assert WorkerOk(s.advisory, s.tables, s.workers[id]) && WorkerOk(s.advisory, s.tables, s.workers[j]);
      OthersAfterCommit(s.advisory, s.tables, s.workers[id], s.workers[j]);
    }
  }

  /** A transaction that has run its statements, or starts them, is fine where it goes next. */
  lemma FirstOk(advisory: bool, t: Tables, w: Worker)
    requires WorkerOk(advisory, t, w) && w.pc.Claiming?
    ensures WorkerOk(advisory, t, w.(pc := FirstPc(w.op)))
  {
    assert LocksHeld(t, w.(pc := FirstPc(w.op)));
  }

  lemma CommittingOk(advisory: bool, t: Tables, w: Worker)
    requires WorkerOk(advisory, t, w) && w.pc.Finalizing?
    ensures WorkerOk(advisory, t, w.(pc := Committing))
  {
    var v := w.(pc := Committing);
    assert LocksHeld(t, v);
    if w.op.Generate? && w.rows != map[] {
      assert NewId(v) == NewId(w);
      assert NewRow(t, v, NewId(v)) && LinksOk(t, v, NewId(v));
    }
  }

  lemma PhaseKeepsWorker(s: State, a: Action, j: nat)
    requires Inv(s) && Enabled(s, a) && j in s.workers
    requires a.Claim? || a.Read? || a.Finalize? || a.Fail? || a.Crash?
    ensures WorkerOk(s.advisory, s.tables, Do(s, a).workers[j])
  {
    hide Ledger.Inv, LocksApart, TablesOk;
    var w := s.workers[j];
    assert WorkerOk(s.advisory, s.tables, w);
    if a.id == j {
      assert InStep(w, s.ledger.runs[j]);
      ClearedOk(s.advisory, s.tables, w);
      if w.pc.Claiming? {
        FirstOk(s.advisory, s.tables, w);
      } else if w.pc.Finalizing? {
        CommittingOk(s.advisory, s.tables, w);
      }
    }
  }

  lemma DoKeepsWorkers(s: State, a: Action)
    requires Inv(s) && Enabled(s, a)
    ensures WorkersOk(Do(s, a))
  {
    hide Ledger.Inv, LocksApart;
    var u := Do(s, a);
    forall j | j in u.workers ensures WorkerOk(u.advisory, u.tables, u.workers[j]) {
      if j !in s.workers {
        ClearedOk(s.advisory, s.tables, u.workers[j]);
      } else {
        assert WorkerOk(s.advisory, s.tables, s.workers[j]);
        match a {
          case Body(id) => BodyKeepsWorker(s, id, j);
          case Commit(id) => CommitKeepsWorker(s, id, j);
          case ChangeOrder(index, order) => OrderChangeKeepsWorker(s.advisory, s.tables, index, order, s.workers[j]);
          case ChangeIncentive(index, incentive) =>
            IncentiveChangeKeepsWorker(s.advisory, s.tables, index, incentive, s.workers[j]);
          case Begin(_, _, _) =>
          case Stamp(_) =>
          case _ => PhaseKeepsWorker(s, a, j);
        }
      }
    }
  }

  lemma DoKeepsInv(s: State, a: Action)
    requires Inv(s) && Enabled(s, a)
    ensures Inv(Do(s, a))
  {
    DoKeepsLedger(s, a);
    DoKeepsInSteps(s, a);
    DoKeepsLocksApart(s, a);
    DoKeepsTables(s, a);
    DoKeepsWorkers(s, a);
  }

  lemma {:induction false} RunKeepsInv(s: State, acts: seq<Action>)
    requires Inv(s) && CanRun(s, acts)
    ensures Inv(Run(s, acts))
    decreases |acts|
  {
    if acts != [] {
      DoKeepsInv(s, acts[0]);
      RunKeepsInv(Do(s, acts[0]), acts[1..]);
    }
  }
}
