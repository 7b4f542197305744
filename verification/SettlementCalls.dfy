/** What a payout call achieves when no other transaction is in progress: the whole of its effect, and its reply. */
module SettlementCalls {
  import opened Prelude
  import opened Periods
  import opened Settlement
  import opened SettlementSafety
  import opened SettlementResults
  import Ledger

  // ---------------------------------------------------------------- a call that nobody disturbs

  /** No transaction is in progress. */
  ghost predicate AtRest(s: State) { Inv(s) && forall j | j in s.ledger.runs :: Ledger.Finished(s.ledger.runs[j].phase) }

  function Fresh(op: Op, pc: Pc): Worker { Worker(op, pc, {}, map[], {}, {}, NO_HISTORY) }

  /** Call `i` is in progress, and has come this far. */
  function During(s: State, i: nat, key: Option<Key>, phase: Ledger.Phase<Reply>, t: Tables, w: Worker): State {
    State(s.advisory, t, s.ledger.(runs := s.ledger.runs[i := Ledger.Attempt(key, w.op, phase)]), s.workers[i := w])
  }

  function Left(pc: Pc): nat {
    match pc
    case TakeAdvisory => 7
    case FindWindow => 6
    case SumFees => 5
    case SumBonus(_) => 4
    case InsertPayout(_, _) => 3
    case FindForPayment => 3
    case MarkCompleted | FindForApproval => 2
    case Finalizing(_) | Committing | Over | Claiming => 0
    case _ => 1
  }

  lemma ExecuteGoesOn(advisory: bool, t: Tables, w: Worker)
    requires CanExecute(w)
    ensures var v := Execute(advisory, t, w); v.op == w.op && Left(v.pc) < Left(w.pc) && (CanExecute(v) || v.pc.Finalizing?)
  {
    hide Needs, SumFeesOf, Deliveries, SumAmounts, Eligible, Settled;
    if w.op.Generate? {
      GenerateGoesOn(t, w.(locks := w.locks + Needs(advisory, t, w)));
    } else {
      hide GenerateStep;
    }
  }

  lemma GenerateGoesOn(t: Tables, w: Worker)
    requires w.op.Generate? && WindowKnown(w.op) && CanExecute(w)
    ensures var v := GenerateStep(t, w); v.op == w.op && Left(v.pc) < Left(w.pc) && (CanExecute(v) || v.pc.Finalizing?)
  {
    hide SumFeesOf, Deliveries, SumAmounts, Eligible, Settled, RowFor, HasWindow, WindowOf;
  }

  /** The tables and the transaction after all its statements. */
  ghost function Work(advisory: bool, t: Tables, w: Worker): (r: (Tables, Worker))
    requires CanExecute(w) || w.pc.Finalizing?
    ensures r.1.pc.Finalizing? && r.1.op == w.op
    decreases Left(w.pc)
  {
    if w.pc.Finalizing? then (t, w)
    else
      ExecuteGoesOn(advisory, t, w);
      Work(advisory, After(t, w), Execute(advisory, t, w))
  }

  ghost predicate NothingHeld(s: State) { forall j | j in s.workers :: s.workers[j].locks == {} }

  lemma RestHoldsNothing(s: State, key: Option<Key>)
    requires AtRest(s) && (key.Some? ==> key.value !in s.ledger.rows)
    ensures NothingHeld(s) && Ledger.Unclaimed(s.ledger, key)
  {
    hide TablesOk, LocksApart;
    forall j | j in s.workers ensures s.workers[j].locks == {} {
      assert InStep(s.workers[j], s.ledger.runs[j]) && WorkerOk(s.advisory, s.tables, s.workers[j]);
    }
  }

  lemma BodyRuns(s: State, i: nat, key: Option<Key>, t: Tables, w: Worker)
    requires NothingHeld(s) && CanExecute(w)
    ensures var d := During(s, i, key, Ledger.Working, t, w);
            Enabled(d, Body(i)) &&
            Do(d, Body(i)) == During(s, i, key, Ledger.Working, After(t, w), Execute(s.advisory, t, w))
  {
    hide Execute, Needs;
    var d := During(s, i, key, Ledger.Working, t, w);
    forall j | j in d.workers && j != i ensures d.workers[j].locks !! Needs(s.advisory, t, w) {
    }
    BodyDoes(d, i);
    ExecuteGoesOn(s.advisory, t, w);
  }

  lemma {:induction false} WorkRuns(s: State, i: nat, key: Option<Key>, t: Tables, w: Worker, rest: seq<Action>)
    returns (acts: seq<Action>)
    requires NothingHeld(s) && (CanExecute(w) || w.pc.Finalizing?)
    requires var (u, v) := Work(s.advisory, t, w); CanRun(During(s, i, key, Ledger.Working, u, v), rest)
    ensures var (u, v) := Work(s.advisory, t, w);
            && CanRun(During(s, i, key, Ledger.Working, t, w), acts)
            && Run(During(s, i, key, Ledger.Working, t, w), acts) == Run(During(s, i, key, Ledger.Working, u, v), rest)
    decreases Left(w.pc)
  {
    hide Do, Enabled, Execute;
    if w.pc.Finalizing? {
      acts := rest;
    } else {
      ExecuteGoesOn(s.advisory, t, w);
      BodyRuns(s, i, key, t, w);
      acts := WorkRuns(s, i, key, After(t, w), Execute(s.advisory, t, w), rest);
      Steps(During(s, i, key, Ledger.Working, t, w), Body(i), acts);
      acts := [Body(i)] + acts;
    }
  }

  /** The tables after a call that runs undisturbed. */
  ghost function Result(advisory: bool, t: Tables, op: Op): Tables
    requires CanExecute(Fresh(op, FirstPc(op)))
  {
    var (u, v) := Work(advisory, t, Fresh(op, FirstPc(op)));
    Committed(u, v.(pc := Committing))
  }

  ghost function Answer(advisory: bool, t: Tables, op: Op): Reply
    requires CanExecute(Fresh(op, FirstPc(op)))
  {
    Work(advisory, t, Fresh(op, FirstPc(op))).1.pc.reply
  }

  lemma EndRuns(s: State, i: nat, key: Option<Key>, t: Tables, w: Worker)
    requires w.pc.Finalizing?
    ensures var d := During(s, i, key, Ledger.Working, t, w);
            var acts := [Finalize(i)] + ([Commit(i)] + []);
            && CanRun(d, acts) && i in Run(d, acts).ledger.runs
            && Run(d, acts).ledger.runs[i].phase == Ledger.Committed(w.pc.reply)
            && Run(d, acts).tables == Committed(t, w.(pc := Committing))
  {
    hide Execute, Needs, Committed;
    var d := During(s, i, key, Ledger.Working, t, w);
    var e := During(s, i, key, Ledger.Finalized(w.pc.reply), t, w.(pc := Committing));
    assert Do(d, Finalize(i)).ledger.runs == e.ledger.runs && Do(d, Finalize(i)).workers == e.workers;
    assert Do(d, Finalize(i)) == e;
    Steps(e, Commit(i), []);
    Steps(d, Finalize(i), [Commit(i)] + []);
  }

  lemma StartRuns(s: State, i: nat, op: Op, name: Option<string>, rest: seq<Action>)
    requires i !in s.workers && i !in s.ledger.runs && Callable(op) && Ledger.Unclaimed(s.ledger, KeyOf(op, name))
    requires CanRun(During(s, i, KeyOf(op, name), Ledger.Working, s.tables, Fresh(op, FirstPc(op))), rest)
    ensures var acts := [Begin(i, op, name)] + ([Claim(i)] + rest);
            && CanRun(s, acts)
            && Run(s, acts) == Run(During(s, i, KeyOf(op, name), Ledger.Working, s.tables, Fresh(op, FirstPc(op))), rest)
  {
    var key := KeyOf(op, name);
    BeginDoes(s, i, op, name);
    var d := During(s, i, key, Ledger.Ready, s.tables, Fresh(op, Claiming));
    assert Do(s, Begin(i, op, name)) == d;
    ClaimDoes(d, Claim(i));
    var e := During(s, i, key, Ledger.Working, s.tables, Fresh(op, FirstPc(op)));
    assert Do(d, Claim(i)).ledger.runs == e.ledger.runs && Do(d, Claim(i)).workers == e.workers;
    Steps(d, Claim(i), rest);
    Steps(s, Begin(i, op, name), [Claim(i)] + rest);
  }

  /** Such a call runs to its end, and its result and its answer are those of its statements one after the other. */
  lemma CallRuns(s: State, i: nat, op: Op, name: Option<string>) returns (acts: seq<Action>)
    requires AtRest(s) && i !in s.workers && Callable(op) && WindowKnown(op)
    requires KeyOf(op, name).Some? ==> KeyOf(op, name).value !in s.ledger.rows
    ensures CanExecute(Fresh(op, FirstPc(op))) && CanRun(s, acts)
    ensures var t := Run(s, acts);
            && i in t.ledger.runs && t.ledger.runs[i].phase == Ledger.Committed(Answer(s.advisory, s.tables, op))
            && t.tables == Result(s.advisory, s.tables, op)
  {
    hide Do, Enabled, Execute, Committed;
    var key := KeyOf(op, name);
    RestHoldsNothing(s, key);
    var w := Fresh(op, FirstPc(op));
    var (u, v) := Work(s.advisory, s.tables, w);
    EndRuns(s, i, key, u, v);
    var rest := WorkRuns(s, i, key, s.tables, w, [Finalize(i)] + ([Commit(i)] + []));
    StartRuns(s, i, op, name, rest);
    acts := [Begin(i, op, name)] + ([Claim(i)] + rest);
  }

  lemma WorkStep(advisory: bool, t: Tables, w: Worker)
    requires CanExecute(w)
    ensures CanExecute(Execute(advisory, t, w)) || Execute(advisory, t, w).pc.Finalizing?
    ensures Work(advisory, t, w) == Work(advisory, After(t, w), Execute(advisory, t, w))
  {
    hide Execute;
    ExecuteGoesOn(advisory, t, w);
  }

  // ---------------------------------------------------------------- generateMonthlySettlement

  /**
   The month is settled once: if it was already, the call changes nothing and replies with that settlement. Otherwise
   there is one new settlement, pending, whose base is what the driver has earned in the month, whose bonus is the sum
   of the incentives that are now linked to it, and these are the approved and unlinked ones earned in the month.
   */
  ghost predicate SettlementMade(t: Tables, u: Tables, op: Op, reply: Reply)
    requires op.Generate? && WindowKnown(op)
  {
    var driver, w := op.driver, OpWindow(op);
    && reply.Row? && reply.id in u.payouts && reply.payout == u.payouts[reply.id]
    && reply.payout.driver == driver && reply.payout.window == w
    && if reply.id in t.payouts then u == t
       else
         && (forall j | j in t.payouts :: !(t.payouts[j].driver == driver && t.payouts[j].window == w))
         && u.payouts == t.payouts[reply.id := reply.payout] && u.orders == t.orders
         && reply.payout.base == Earned(t.orders, driver, w)
         && reply.payout.bonus == SumAmounts(u.incentives, Linked(u.incentives, reply.id))
         && reply.payout.total == reply.payout.base + reply.payout.bonus
         && reply.payout.status.Pending? && reply.payout.approvedBy.None? && reply.payout.payment.None?
         && |u.incentives| == |t.incentives|
         && (forall k | 0 <= k < |t.incentives| ::
               var x := t.incentives[k];
               u.incentives[k] ==
                 if x.driver == driver && x.status.Approved? && x.settlement.None? && w.start <= x.earnedAt < w.end
                 then x.(settlement := Some(reply.id)) else x)
  }

  /** A generate transaction that holds its advisory lock. */
  function Holding(advisory: bool, op: Op, pc: Pc): Worker
    requires op.Generate? && WindowKnown(op)
  {
    Fresh(op, pc).(locks := if advisory then {Advisory(op.driver, OpWindow(op))} else {})
  }

  lemma GenerateFinds(advisory: bool, t: Tables, op: Op)
    requires op.Generate? && WindowKnown(op) && Settled(t.payouts, op.driver, OpWindow(op)) != {}
    ensures SettlementMade(t, Result(advisory, t, op), op, Answer(advisory, t, op))
  {
    hide SumFeesOf, Deliveries, SumAmounts, Eligible, Earned;
    var w := Fresh(op, TakeAdvisory);
    WorkStep(advisory, t, w);
    var w1 := Execute(advisory, t, w);
    WorkStep(advisory, t, w1);
    var w2 := Execute(advisory, t, w1);
    RowForFinds(t, op.driver, OpWindow(op));
    NothingWritten(t, w2.(pc := Committing));
  }

  lemma GenerateInserts(advisory: bool, t: Tables, op: Op)
    requires op.Generate? && WindowKnown(op) && Settled(t.payouts, op.driver, OpWindow(op)) == {}
    ensures var base, bonus := SumFeesOf(t.orders, Deliveries(t.orders, op.driver, OpWindow(op))),
                               SumAmounts(t.incentives, Eligible(t.incentives, op.driver, OpWindow(op)));
            var w := Holding(advisory, op, InsertPayout(base, bonus)).(past := History(t.orders, 0, 0, {}));
            CanExecute(w) && Work(advisory, t, Fresh(op, TakeAdvisory)) == Work(advisory, t, w)
  {
    hide SumFeesOf, Deliveries, SumAmounts, Eligible, Work;
    var w := Fresh(op, TakeAdvisory);
    WorkStep(advisory, t, w);
    assert Execute(advisory, t, w) == Holding(advisory, op, FindWindow);
    GenerateFindsNothing(advisory, t, op);
    WorkStep(advisory, t, Holding(advisory, op, SumFees));
    WorkStep(advisory, t, Execute(advisory, t, Holding(advisory, op, SumFees)));
  }

  lemma GenerateFindsNothing(advisory: bool, t: Tables, op: Op)
    requires op.Generate? && WindowKnown(op) && Settled(t.payouts, op.driver, OpWindow(op)) == {}
    ensures Work(advisory, t, Holding(advisory, op, FindWindow)) == Work(advisory, t, Holding(advisory, op, SumFees))
  {
    hide SumFeesOf, Deliveries, SumAmounts, Eligible, Work;
    RowForFinds(t, op.driver, OpWindow(op));
    WorkStep(advisory, t, Holding(advisory, op, FindWindow));
    assert Needs(advisory, t, Holding(advisory, op, FindWindow)) == {};
    assert Execute(advisory, t, Holding(advisory, op, FindWindow)) == Holding(advisory, op, SumFees);
  }

  /** The call has inserted the settlement and is about to link the eligible incentives to it. */
  ghost predicate Inserts(t: Tables, op: Op, base: int, bonus: int, r: (Tables, Worker))
    requires op.Generate? && WindowKnown(op)
  {
    var p := Payout(op.driver, OpWindow(op), base, bonus, base + bonus, Pending, None, None);
    && r.0 == Bumped(t) && r.1.rows == map[t.nextId := p] && r.1.links == Eligible(t.incentives, op.driver, OpWindow(op))
    && r.1.pays == {} && r.1.pc == Finalizing(Row(t.nextId, p))
  }

  lemma GenerateLinks(advisory: bool, t: Tables, op: Op, w: Worker)
    requires op.Generate? && WindowKnown(op) && Settled(t.payouts, op.driver, OpWindow(op)) == {}
    requires w.op == op && w.pc.InsertPayout? && w.rows == map[] && w.links == {} && w.pays == {}
    ensures Inserts(t, op, w.pc.base, w.pc.bonus, Work(advisory, t, w))
  {
    hide SumFeesOf, Deliveries, SumAmounts, Eligible;
    WorkStep(advisory, t, w);
    var v := Execute(advisory, t, w);
    WorkStep(advisory, Bumped(t), v);
  }

  lemma GenerateResult(advisory: bool, t: Tables, op: Op)
    requires TablesOk(t) && op.Generate? && WindowKnown(op)
    ensures SettlementMade(t, Result(advisory, t, op), op, Answer(advisory, t, op))
  {
    if Settled(t.payouts, op.driver, OpWindow(op)) != {} {
      GenerateFinds(advisory, t, op);
      return;
    }
    hide Earned, SumFeesOf, SumAmounts, Deliveries, Eligible, SettlementMade, Result, Answer, Work, Inserts;
    var driver, window := op.driver, OpWindow(op);
    GenerateInserts(advisory, t, op);
    SumIsEarned(t.orders, driver, window);
    var base, bonus := SumFeesOf(t.orders, Deliveries(t.orders, driver, window)),
                       SumAmounts(t.incentives, Eligible(t.incentives, driver, window));
    var w := Holding(advisory, op, InsertPayout(base, bonus)).(past := History(t.orders, 0, 0, {}));
    GenerateLinks(advisory, t, op, w);
    GenerateCommits(advisory, t, op, base, bonus);
  }

  lemma GenerateCommits(advisory: bool, t: Tables, op: Op, base: int, bonus: int)
    requires TablesOk(t) && op.Generate? && WindowKnown(op) && Settled(t.payouts, op.driver, OpWindow(op)) == {}
    requires base == Earned(t.orders, op.driver, OpWindow(op))
    requires bonus == SumAmounts(t.incentives, Eligible(t.incentives, op.driver, OpWindow(op)))
    requires Inserts(t, op, base, bonus, Work(advisory, t, Fresh(op, TakeAdvisory)))
    ensures SettlementMade(t, Result(advisory, t, op), op, Answer(advisory, t, op))
  {
    hide Work, SumAmounts, Earned, Execute, Needs;
    var (u, v) := Work(advisory, t, Fresh(op, TakeAdvisory));
    var id, r := t.nextId, Result(advisory, t, op);
    assert id in t.payouts ==> PayoutOk(t, id);
    CommitInserts(u, v.(pc := Committing), id);
    forall j | j in t.payouts ensures !(t.payouts[j].driver == op.driver && t.payouts[j].window == OpWindow(op)) {
      assert j !in Settled(t.payouts, op.driver, OpWindow(op));
    }
    forall k: nat | k < |t.incentives| ensures t.incentives[k].settlement != Some(id) {
      assert IncentiveOk(t, t.incentives[k]);
    }
    assert Linked(r.incentives, id) == v.links;
    SumSame(t.incentives, r.incentives, v.links);
  }

  lemma UndisturbedGenerate(s: State, i: nat, op: Op, name: Option<string>) returns (acts: seq<Action>, reply: Reply)
    requires AtRest(s) && i !in s.workers && op.Generate? && WindowKnown(op) && Callable(op)
    requires KeyOf(op, name).Some? ==> KeyOf(op, name).value !in s.ledger.rows
    ensures CanRun(s, acts) && i in Run(s, acts).ledger.runs && Run(s, acts).ledger.runs[i].phase == Ledger.Committed(reply)
    ensures SettlementMade(s.tables, Run(s, acts).tables, op, reply)
  {
    hide Work, Result, Answer, SettlementMade;
    acts := CallRuns(s, i, op, name);
    reply := Answer(s.advisory, s.tables, op);
    GenerateResult(s.advisory, s.tables, op);
  }

  // ---------------------------------------------------------------- approveSettlement and processSettlement

  /**
   Approving succeeds exactly if the settlement is pending, or has been approved by the same user and not yet been paid;
   in the first case, and no other, it changes the settlement, and nothing but its status and its approver.
   */
  ghost predicate ApprovalMade(t: Tables, u: Tables, op: Op, reply: Reply)
    requires op.Approve?
  {
    var id := op.payout;
    var pending := id in t.payouts && t.payouts[id].status.Pending?;
    var repeated := id in t.payouts && t.payouts[id].status.Authorised? && t.payouts[id].approvedBy == Some(op.approver);
    && reply == Flag(pending || repeated)
    && u.incentives == t.incentives && u.orders == t.orders
    && u.payouts == if pending then t.payouts[id := t.payouts[id].(status := Authorised, approvedBy := Some(op.approver))]
                    else t.payouts
  }

  /**
   Paying succeeds exactly if the settlement is approved, or has been paid with the same payment; in the first case, and
   no other, the settlement is completed with the payment, and exactly the incentives linked to it become paid.
   */
  ghost predicate PaymentMade(t: Tables, u: Tables, op: Op, reply: Reply)
    requires op.Process?
  {
    var id := op.payout;
    var approved := id in t.payouts && t.payouts[id].status.Authorised?;
    var repeated := id in t.payouts && t.payouts[id].status.Completed? && t.payouts[id].payment == Some(op.payment);
    && reply == Flag(approved || repeated)
    && u.orders == t.orders && |u.incentives| == |t.incentives|
    && u.payouts == (if approved then t.payouts[id := t.payouts[id].(status := Completed, payment := Some(op.payment))]
                     else t.payouts)
    && forall k | 0 <= k < |t.incentives| ::
         u.incentives[k] == if approved && t.incentives[k].settlement == Some(id) then t.incentives[k].(status := Paid)
                            else t.incentives[k]
  }

  lemma ApproveResult(advisory: bool, t: Tables, op: Op)
    requires op.Approve?
    ensures ApprovalMade(t, Result(advisory, t, op), op, Answer(advisory, t, op))
  {
    var w := Fresh(op, FindForApproval);
    WorkStep(advisory, t, w);
    var v := Execute(advisory, t, w);
    if v.pc.MarkApproved? {
      WorkStep(advisory, t, v);
      var x := Execute(advisory, t, v);
      CommitUpdates(t, x.(pc := Committing), op.payout);
      assert Result(advisory, t, op).incentives == t.incentives;
    } else {
      NothingWritten(t, v.(pc := Committing));
    }
  }

  lemma ProcessResult(advisory: bool, t: Tables, op: Op)
    requires TablesOk(t) && op.Process?
    ensures PaymentMade(t, Result(advisory, t, op), op, Answer(advisory, t, op))
  {
    var w := Fresh(op, FindForPayment);
    WorkStep(advisory, t, w);
    var v := Execute(advisory, t, w);
    if v.pc.MarkCompleted? {
      WorkStep(advisory, t, v);
      var x := Execute(advisory, t, v);
      WorkStep(advisory, t, x);
      UnpaidIsLinked(t, op.payout);
      CommitUpdates(t, Execute(advisory, t, x).(pc := Committing), op.payout);
    } else {
      NothingWritten(t, v.(pc := Committing));
    }
  }

  lemma UndisturbedApproval(s: State, i: nat, op: Op, name: Option<string>) returns (acts: seq<Action>, reply: Reply)
    requires AtRest(s) && i !in s.workers && !op.Generate?
    requires KeyOf(op, name).Some? ==> KeyOf(op, name).value !in s.ledger.rows
    ensures CanRun(s, acts) && i in Run(s, acts).ledger.runs && Run(s, acts).ledger.runs[i].phase == Ledger.Committed(reply)
    ensures op.Approve? ==> ApprovalMade(s.tables, Run(s, acts).tables, op, reply)
    ensures op.Process? ==> PaymentMade(s.tables, Run(s, acts).tables, op, reply)
  {
    hide Work, Result, Answer, ApprovalMade, PaymentMade;
    acts := CallRuns(s, i, op, name);
    reply := Answer(s.advisory, s.tables, op);
    if op.Approve? {
      ApproveResult(s.advisory, s.tables, op);
    } else {
      ProcessResult(s.advisory, s.tables, op);
    }
  }
}
