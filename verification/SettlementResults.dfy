/** What the payout calls promise, over every interleaving of statements, retries, rollbacks and late stamps. */
module SettlementResults {
  import opened Prelude
  import opened Periods
  import opened Settlement
  import opened SettlementSafety
  import Ledger

  lemma ReachableInv(advisory: bool, acts: seq<Action>)
    requires CanRun(Init(advisory), acts)
    ensures Inv(Run(Init(advisory), acts))
  {
    RunKeepsInv(Init(advisory), acts);
  }

  // ---------------------------------------------------------------- uniqueness

  /** At most one settlement per driver and window, with the advisory lock or with the unique index alone. */
  lemma OneSettlementPerWindow(advisory: bool, acts: seq<Action>, i: nat, j: nat)
    requires CanRun(Init(advisory), acts)
    requires i in Run(Init(advisory), acts).tables.payouts && j in Run(Init(advisory), acts).tables.payouts
    ensures var p := Run(Init(advisory), acts).tables.payouts;
            p[i].driver == p[j].driver && p[i].window == p[j].window ==> i == j
  {
    ReachableInv(advisory, acts);
  }

  /** The fee of the order is part of the settlement's base: its SUM found the order delivered by its driver in its window. */
  ghost predicate Enters(t: Tables, o: nat, id: nat) {
    && id in t.payouts && id in t.past && o < |t.past[id].read|
    && IsDelivery(t.past[id].read[o], t.payouts[id].driver, t.payouts[id].window)
  }

  /** A delivered order's fee enters the base of at most one settlement. */
  lemma OrderSettledOnce(advisory: bool, acts: seq<Action>, o: nat, i: nat, j: nat)
    requires CanRun(Init(advisory), acts)
    requires Enters(Run(Init(advisory), acts).tables, o, i) && Enters(Run(Init(advisory), acts).tables, o, j)
    ensures i == j
  {
    ReachableInv(advisory, acts);
    var t := Run(Init(advisory), acts).tables;
    assert PayoutOk(t, i) && PayoutOk(t, j);
    assert IsCounted(t.orders, o, t.payouts[i].driver, t.payouts[i].window);
    assert IsCounted(t.orders, o, t.payouts[j].driver, t.payouts[j].window);
    WindowsApart(t.payouts[i].window, t.payouts[j].window);
  }

  /**
   The base of a settlement is what its driver had earned in its window when the fees were summed: the fees of the
   orders that enter it and no others. What it differs by from what the driver has earned there now is what changes of
   orders have added since.
   */
  lemma BaseIsEarnings(advisory: bool, acts: seq<Action>, id: nat)
    requires CanRun(Init(advisory), acts) && id in Run(Init(advisory), acts).tables.payouts
    ensures var t := Run(Init(advisory), acts).tables;
            && id in t.past
            && t.payouts[id].base == Earned(t.past[id].read, t.payouts[id].driver, t.payouts[id].window)
            && t.payouts[id].base + t.past[id].late == Earned(t.orders, t.payouts[id].driver, t.payouts[id].window)
  {
    ReachableInv(advisory, acts);
    assert PayoutOk(Run(Init(advisory), acts).tables, id);
  }

  /** Orders of other drivers, orders that are not delivered and orders of other months earn a driver nothing. */
  lemma {:induction false} OnlyOwnDeliveriesEarn(a: seq<Order>, b: seq<Order>, driver: int, window: Window)
    requires |a| == |b|
    requires forall k | 0 <= k < |a| && a[k] != b[k] ::
               forall o | o == a[k] || o == b[k] ::
                 o.driver != driver || !o.delivered || o.deliveredAt.None? ||
                 o.deliveredAt.value < window.start || o.deliveredAt.value >= window.end
    ensures Earned(a, driver, window) == Earned(b, driver, window)
  {
    if a != [] {
      OnlyOwnDeliveriesEarn(a[..|a| - 1], b[..|b| - 1], driver, window);
    }
  }

  /** One more order, delivered by the driver in the window, earns its fee. */
  lemma DeliveryEarnsItsFee(orders: seq<Order>, o: Order, driver: int, window: Window)
    requires o.driver == driver && o.delivered && o.deliveredAt.Some? && window.start <= o.deliveredAt.value < window.end
    ensures Earned(orders + [o], driver, window) == Earned(orders, driver, window) + o.fee
    ensures Earned([], driver, window) == 0
  {
    assert (orders + [o])[..|orders|] == orders;
  }

  /** While the advisory lock works, the branch that reads back a window settled by someone else is never taken. */
  lemma ReadBackIsDefenceOnly(acts: seq<Action>, j: nat)
    requires CanRun(Init(true), acts) && j in Run(Init(true), acts).workers
    ensures !Run(Init(true), acts).workers[j].pc.ReadBack?
  {
    ReachableInv(true, acts);
    var s := Run(Init(true), acts);
    RunKeepsAdvisory(Init(true), acts);
    assert WorkerOk(s.advisory, s.tables, s.workers[j]);
  }

  lemma {:induction false} RunKeepsAdvisory(s: State, acts: seq<Action>)
    requires CanRun(s, acts)
    ensures Run(s, acts).advisory == s.advisory
    decreases |acts|
  {
    if acts != [] {
      RunKeepsAdvisory(Do(s, acts[0]), acts[1..]);
    }
  }

  // ---------------------------------------------------------------- conservation

  /**
   Every settlement has total = base + bonus, and the incentives linked to it sum to its bonus plus the drift:
   what other sessions changed among the eligible incentives between the SUM and the claiming UPDATE.
   So the bonus is the linked sum exactly when nothing drifted.
   */
  lemma Conservation(advisory: bool, acts: seq<Action>, id: nat)
    requires CanRun(Init(advisory), acts) && id in Run(Init(advisory), acts).tables.payouts
    ensures var t := Run(Init(advisory), acts).tables;
            && id in t.past
            && t.payouts[id].total == t.payouts[id].base + t.payouts[id].bonus
            && SumAmounts(t.incentives, Linked(t.incentives, id)) == t.payouts[id].bonus + t.past[id].drift
            && (SumAmounts(t.incentives, Linked(t.incentives, id)) == t.payouts[id].bonus <==> t.past[id].drift == 0)
  {
    ReachableInv(advisory, acts);
    assert PayoutOk(Run(Init(advisory), acts).tables, id);
  }

  /** A linked incentive belongs to its settlement's driver and window, and is paid exactly when that is completed. */
  lemma PaidWhenCompleted(advisory: bool, acts: seq<Action>, k: nat)
    requires CanRun(Init(advisory), acts) && k < |Run(Init(advisory), acts).tables.incentives|
    requires Run(Init(advisory), acts).tables.incentives[k].settlement.Some?
    ensures var t := Run(Init(advisory), acts).tables;
            var id := t.incentives[k].settlement.value;
            && id in t.payouts
            && t.incentives[k].driver == t.payouts[id].driver
            && Contains(t.payouts[id].window, t.incentives[k].earnedAt)
            && (t.incentives[k].status.Paid? <==> t.payouts[id].status.Completed?)
  {
    ReachableInv(advisory, acts);
    var t := Run(Init(advisory), acts).tables;
    assert IncentiveOk(t, t.incentives[k]);
  }

  /**
   An approved incentive of the driver and the window of a settlement that the settlement has not linked was created or
   changed after it had linked its incentives.
   */
  lemma NothingForgotten(advisory: bool, acts: seq<Action>, id: nat, k: nat)
    requires CanRun(Init(advisory), acts) && id in Run(Init(advisory), acts).tables.payouts
    requires k < |Run(Init(advisory), acts).tables.incentives|
    requires var t := Run(Init(advisory), acts).tables;
             var i, p := t.incentives[k], t.payouts[id];
             i.driver == p.driver && i.status.Approved? && i.settlement.None? && p.window.start <= i.earnedAt < p.window.end
    ensures id in Run(Init(advisory), acts).tables.past && k in Run(Init(advisory), acts).tables.past[id].edited
  {
    ReachableInv(advisory, acts);
    var t := Run(Init(advisory), acts).tables;
    assert PayoutOk(t, id);
    assert k in Eligible(t.incentives, t.payouts[id].driver, t.payouts[id].window);
  }

  /** The transaction has summed the fees. */
  predicate Summed(w: Worker) { w.op.Generate? && (w.pc.SumBonus? || w.pc.InsertPayout? || w.rows != map[]) }

  /**
   No change to an incentive moves an eligible sum while a generate transaction is between its SUM and its UPDATE, and
   none to an order moves what has been earned in a window whose fees have been summed.
   */
  ghost predicate Undisturbed(s: State, a: Action)
    requires Enabled(s, a)
  {
    && (a.ChangeIncentive? ==>
          forall j | j in s.workers :: DriftOf(s.workers[j], s.tables.incentives, a.index, a.incentive) == 0)
    && (a.ChangeOrder? ==>
          && (forall id | id in s.tables.payouts ::
                LateFee(s.tables.orders, a.index, a.order, s.tables.payouts[id].driver, s.tables.payouts[id].window) == 0)
          && (forall j | j in s.workers && Summed(s.workers[j]) && WindowKnown(s.workers[j].op) ::
                LateFee(s.tables.orders, a.index, a.order, s.workers[j].op.driver, OpWindow(s.workers[j].op)) == 0))
  }

  ghost predicate Quiet(s: State, acts: seq<Action>)
    requires CanRun(s, acts)
    decreases |acts|
  {
    acts != [] ==> Undisturbed(s, acts[0]) && Quiet(Do(s, acts[0]), acts[1..])
  }

  ghost predicate NoDrift(s: State) {
    && (forall id | id in s.tables.past :: s.tables.past[id].drift == 0 && s.tables.past[id].late == 0)
    && (forall j | j in s.workers :: s.workers[j].past.drift == 0 && (Summed(s.workers[j]) ==> s.workers[j].past.late == 0))
  }

  lemma ExecuteDrift(advisory: bool, t: Tables, w: Worker)
    requires CanExecute(w) && w.past.drift == 0 && (Summed(w) ==> w.past.late == 0)
    ensures var v := Execute(advisory, t, w); v.past.drift == 0 && (Summed(v) ==> v.past.late == 0)
  {
  }

  lemma DoKeepsNoDrift(s: State, a: Action)
    requires Inv(s) && NoDrift(s) && Enabled(s, a) && Undisturbed(s, a)
    ensures NoDrift(Do(s, a))
  {
    if a.Body? {
      hide Inv, Do, Enabled;
      BodyDoes(s, a.id);
      ExecuteDrift(s.advisory, s.tables, s.workers[a.id]);
    } else {
      OthersDoNotDrift(s, a);
    }
  }

  lemma OthersDoNotDrift(s: State, a: Action)
    requires Inv(s) && NoDrift(s) && Enabled(s, a) && Undisturbed(s, a) && !a.Body?
    ensures NoDrift(Do(s, a))
  {
    hide Ledger.Inv, Ledger.Do, Ledger.Enabled, LocksApart, TablesOk, InSteps, Execute, Needs;
    if a.Commit? {
      hide PcFits, LocksHeld, GenerateOk, ApproveOk, ProcessOk;
      CommitDoesNotDrift(s.advisory, s.tables, s.workers[a.id]);
    } else {
      hide WorkersOk, Committed;
    }
  }

  lemma CommitDoesNotDrift(advisory: bool, t: Tables, w: Worker)
    requires WorkerOk(advisory, t, w)
    ensures forall id | id in w.rows && id !in t.payouts :: w.op.Generate?
    ensures Committed(t, w).past == t.past + map id | id in w.rows.Keys - t.payouts.Keys :: w.past
  {
  }

  lemma {:induction false} QuietRunsDoNotDrift(s: State, acts: seq<Action>)
    requires Inv(s) && CanRun(s, acts) && Quiet(s, acts) && NoDrift(s)
    ensures NoDrift(Run(s, acts))
    decreases |acts|
  {
    if acts != [] {
      DoKeepsInv(s, acts[0]);
      DoKeepsNoDrift(s, acts[0]);
      QuietRunsDoNotDrift(Do(s, acts[0]), acts[1..]);
    }
  }

  /**
   In a quiet run every settlement's base is what its driver has earned in its window, its bonus the sum of its linked
   incentives.
   */
  lemma QuietRunsConserve(advisory: bool, acts: seq<Action>, id: nat)
    requires CanRun(Init(advisory), acts) && Quiet(Init(advisory), acts)
    requires id in Run(Init(advisory), acts).tables.payouts
    ensures var t := Run(Init(advisory), acts).tables;
            && t.payouts[id].base == Earned(t.orders, t.payouts[id].driver, t.payouts[id].window)
            && t.payouts[id].bonus == SumAmounts(t.incentives, Linked(t.incentives, id))
  {
    ReachableInv(advisory, []);
    QuietRunsDoNotDrift(Init(advisory), acts);
    BaseIsEarnings(advisory, acts, id);
    Conservation(advisory, acts, id);
  }

  // ---------------------------------------------------------------- history

  function Rank(p: PayoutStatus): nat {
    match p
    case Pending => 0
    case Authorised => 1
    case Completed => 2
  }

  /** What may change in a committed payout: it only moves forward, and a completed one never changes again. */
  ghost predicate Advances(p: Payout, q: Payout) {
    && q == p.(status := q.status, approvedBy := q.approvedBy, payment := q.payment)
    && Rank(p.status) <= Rank(q.status)
    && (p.approvedBy.Some? ==> q.approvedBy == p.approvedBy)
    && (p.status.Completed? ==> q == p)
  }

  ghost predicate LinkKept(i: Incentive, j: Incentive) {
    i.settlement.Some? ==> j == i.(status := j.status) && (i.status.Paid? ==> j.status.Paid?)
  }

  ghost predicate Later(t: Tables, u: Tables) {
    && (forall id | id in t.payouts :: id in u.payouts && Advances(t.payouts[id], u.payouts[id]))
    && |t.incentives| <= |u.incentives|
    && (forall k | 0 <= k < |t.incentives| :: LinkKept(t.incentives[k], u.incentives[k]))
  }

  lemma InsertAdvances(t: Tables, u: Tables, w: Worker, id: nat)
    requires w.op.Generate? && WindowKnown(w.op) && id in w.rows && id !in t.payouts
    requires LinksOk(t, w, id) && Inserted(t, u, w, id)
    ensures Later(t, u)
  {
    forall k | 0 <= k < |t.incentives| ensures LinkKept(t.incentives[k], u.incentives[k]) {
      assert k in w.links ==> IsEligible(t.incentives[k], w.op.driver, OpWindow(w.op));
    }
  }

  lemma UpdateAdvances(t: Tables, u: Tables, w: Worker, id: nat)
    requires TablesOk(t) && id in w.rows && id in t.payouts && Moved(t, w, id) && Updated(t, u, w, id)
    ensures Later(t, u)
  {
    assert PayoutOk(t, id);
  }

  lemma CommitAdvances(advisory: bool, t: Tables, w: Worker)
    requires TablesOk(t) && WorkerOk(advisory, t, w) && (w.pc.Committing? || w.pc.Claiming?)
    ensures Later(t, Committed(t, w))
  {
    if w.rows == map[] {
      NothingWritten(t, w);
    } else if w.op.Generate? {
      CommitInserts(t, w, NewId(w));
      InsertAdvances(t, Committed(t, w), w, NewId(w));
    } else {
      CommitUpdates(t, w, w.op.payout);
      UpdateAdvances(t, Committed(t, w), w, w.op.payout);
    }
  }

  lemma OthersAdvance(s: State, a: Action)
    requires Enabled(s, a) && !a.Commit?
    ensures Later(s.tables, Do(s, a).tables)
  {
  }

  lemma DoAdvances(s: State, a: Action)
    requires Inv(s) && Enabled(s, a)
    ensures Later(s.tables, Do(s, a).tables)
  {
    if a.Commit? {
      assert InStep(s.workers[a.id], s.ledger.runs[a.id]) && WorkerOk(s.advisory, s.tables, s.workers[a.id]);
      CommitAdvances(s.advisory, s.tables, s.workers[a.id]);
    } else {
      OthersAdvance(s, a);
    }
  }

  lemma LaterTransitive(t: Tables, u: Tables, v: Tables)
    requires Later(t, u) && Later(u, v)
    ensures Later(t, v)
  {
    forall k | 0 <= k < |t.incentives| ensures LinkKept(t.incentives[k], v.incentives[k]) {
      assert LinkKept(t.incentives[k], u.incentives[k]) && LinkKept(u.incentives[k], v.incentives[k]);
    }
    forall id | id in t.payouts ensures id in v.payouts && Advances(t.payouts[id], v.payouts[id]) {
      assert Advances(t.payouts[id], u.payouts[id]) && Advances(u.payouts[id], v.payouts[id]);
    }
  }

  /**
   Whatever runs next, no settlement disappears or goes back, an approval and a payment reference never change,
   and an incentive that has been linked stays linked to the same settlement with the same amount.
   */
  lemma {:induction false} HistoryIsFixed(s: State, acts: seq<Action>)
    requires Inv(s) && CanRun(s, acts)
    ensures Later(s.tables, Run(s, acts).tables)
    decreases |acts|
  {
    if acts != [] {
      DoKeepsInv(s, acts[0]);
      DoAdvances(s, acts[0]);
      HistoryIsFixed(Do(s, acts[0]), acts[1..]);
      LaterTransitive(s.tables, Do(s, acts[0]).tables, Run(s, acts).tables);
    }
  }

  // ---------------------------------------------------------------- the ledger underneath

  /** The ledger steps of a run. */
  ghost function Trace(s: State, acts: seq<Action>): seq<Ledger.Action<Key, Op, Reply>>
    requires CanRun(s, acts)
    decreases |acts|
  {
    if acts == [] then []
    else
      var rest := Trace(Do(s, acts[0]), acts[1..]);
      if OnLedger(s, acts[0]).Some? then [OnLedger(s, acts[0]).value] + rest else rest
  }

  lemma {:induction false} RunsOnLedger(s: State, acts: seq<Action>)
    requires CanRun(s, acts)
    ensures Ledger.CanRun(s.ledger, Trace(s, acts)) && Ledger.Run(s.ledger, Trace(s, acts)) == Run(s, acts).ledger
    decreases |acts|
  {
    if acts != [] {
      RunsOnLedger(Do(s, acts[0]), acts[1..]);
      var l := OnLedger(s, acts[0]);
      if l.Some? {
        assert Trace(s, acts)[1..] == Trace(Do(s, acts[0]), acts[1..]);
        Ledger.Steps(s.ledger, Trace(s, acts));
      }
    }
  }

  /** Two keyed payout calls under one key never both commit an effect. */
  lemma PayoutEffectOnce(advisory: bool, acts: seq<Action>, i: nat, j: nat)
    requires CanRun(Init(advisory), acts)
    requires var runs := Run(Init(advisory), acts).ledger.runs;
             i in runs && j in runs && runs[i].phase.Committed? && runs[j].phase.Committed? &&
             runs[i].key.Some? && runs[i].key == runs[j].key
    ensures i == j
  {
    RunsOnLedger(Init(advisory), acts);
    Ledger.EffectOnce(Trace(Init(advisory), acts), i, j);
  }

  // ---------------------------------------------------------------- the replies are true

  /** What the reply of a call says about the payouts. */
  ghost predicate Truthful(payouts: map<nat, Payout>, op: Op, reply: Reply) {
    match op
    case Generate(driver, month, year) =>
      && reply.Row? && reply.id in payouts && HasWindow(month, year)
      && SettledBy(payouts[reply.id], driver, WindowOf(month, year))
      && Advances(reply.payout, payouts[reply.id])
    case Approve(id, approver) =>
      reply.Flag? && (reply.value ==> id in payouts && payouts[id].approvedBy == Some(approver))
    case Process(id, payment) =>
      reply.Flag? && (reply.value ==> id in payouts && payouts[id].status.Completed? && payouts[id].payment == Some(payment))
  }

  /** The payouts as the transaction sees them: its own rows over the committed ones. */
  function View(t: Tables, w: Worker): map<nat, Payout> { t.payouts + w.rows }

  ghost predicate RepliesWell(t: Tables, w: Worker, phase: Ledger.Phase<Reply>) {
    && (w.pc.Finalizing? ==> Truthful(View(t, w), w.op, w.pc.reply))
    && (phase.Finalized? || phase.Committed? ==> Truthful(View(t, w), w.op, phase.response))
    && (w.op.Generate? && WindowKnown(w.op) && w.pc.ReadBack? ==> Settled(t.payouts, w.op.driver, OpWindow(w.op)) != {})
  }

  ghost predicate RepliesTrue(s: State)
    requires InSteps(s)
  {
    forall j {:trigger RepliesWell(s.tables, s.workers[j], s.ledger.runs[j].phase)} | j in s.workers ::
      RepliesWell(s.tables, s.workers[j], s.ledger.runs[j].phase)
  }

  lemma AdvancesTransitive(p: Payout, q: Payout, r: Payout)
    requires Advances(p, q) && Advances(q, r)
    ensures Advances(p, r)
  {
  }

  lemma TruthStays(v: map<nat, Payout>, v': map<nat, Payout>, op: Op, reply: Reply)
    requires Truthful(v, op, reply) && forall id | id in v :: id in v' && Advances(v[id], v'[id])
    ensures Truthful(v', op, reply)
  {
    if op.Generate? {
      AdvancesTransitive(reply.payout, v[reply.id], v'[reply.id]);
    }
  }

  /** Commits elsewhere only move on rows the transaction has not itself written. */
  lemma RepliesStay(t: Tables, u: Tables, w: Worker, phase: Ledger.Phase<Reply>)
    requires RepliesWell(t, w, phase) && Later(t, u)
    ensures RepliesWell(u, w, phase)
  {
    if w.pc.Finalizing? {
      TruthStays(View(t, w), View(u, w), w.op, w.pc.reply);
    }
    if phase.Finalized? || phase.Committed? {
      TruthStays(View(t, w), View(u, w), w.op, phase.response);
    }
    if w.op.Generate? && WindowKnown(w.op) && w.pc.ReadBack? {
      var id :| id in Settled(t.payouts, w.op.driver, OpWindow(w.op));
      assert id in Settled(u.payouts, w.op.driver, OpWindow(w.op));
    }
  }

  lemma GenerateReplies(advisory: bool, t: Tables, w: Worker)
    requires TablesOk(t) && WorkerOk(advisory, t, w) && CanExecute(w) && w.op.Generate?
    requires w.pc.ReadBack? ==> Settled(t.payouts, w.op.driver, OpWindow(w.op)) != {}
    ensures var v := Execute(advisory, t, w);
            (v.pc.Finalizing? ==> Truthful(View(t, v), v.op, v.pc.reply)) &&
            (v.pc.ReadBack? ==> Settled(t.payouts, w.op.driver, OpWindow(w.op)) != {})
  {
    RowForFinds(t, w.op.driver, OpWindow(w.op));
    if w.pc.LinkIncentives? {
      assert w.pc.id in w.rows;
    }
  }

  lemma ApproveReplies(advisory: bool, t: Tables, w: Worker)
    requires TablesOk(t) && WorkerOk(advisory, t, w) && CanExecute(w) && !w.op.Generate?
    ensures var v := Execute(advisory, t, w);
            v.pc.Finalizing? ==> Truthful(View(t, v), v.op, v.pc.reply)
  {
  }

  lemma BodyReplies(s: State, id: nat)
    requires Inv(s) && RepliesTrue(s) && Enabled(s, Body(id))
    ensures RepliesWell(s.tables, Do(s, Body(id)).workers[id], s.ledger.runs[id].phase)
  {
    var w := s.workers[id];
    assert WorkerOk(s.advisory, s.tables, w) && InStep(w, s.ledger.runs[id]);
    assert RepliesWell(s.tables, w, s.ledger.runs[id].phase);
    if w.op.Generate? {
      GenerateReplies(s.advisory, s.tables, w);
    } else {
      ApproveReplies(s.advisory, s.tables, w);
    }
  }

  lemma CommitView(t: Tables, w: Worker)
    ensures View(Committed(t, w), Cleared(w)) == View(t, w)
  {
  }

  lemma CommitReplies(s: State, id: nat)
    requires Inv(s) && RepliesTrue(s) && Enabled(s, Commit(id))
    ensures RepliesWell(Do(s, Commit(id)).tables, Do(s, Commit(id)).workers[id], Do(s, Commit(id)).ledger.runs[id].phase)
  {
    var w := s.workers[id];
    assert InStep(w, s.ledger.runs[id]) && RepliesWell(s.tables, w, s.ledger.runs[id].phase);
    CommitView(s.tables, w);
  }

  lemma FinalizeReplies(s: State, id: nat)
    requires Inv(s) && RepliesTrue(s) && Enabled(s, Finalize(id))
    ensures RepliesWell(s.tables, Do(s, Finalize(id)).workers[id], Do(s, Finalize(id)).ledger.runs[id].phase)
  {
    var w := s.workers[id];
    assert InStep(w, s.ledger.runs[id]) && RepliesWell(s.tables, w, s.ledger.runs[id].phase);
    assert View(s.tables, w.(pc := Committing)) == View(s.tables, w);
  }

  lemma NoReplyYet(s: State, a: Action)
    requires Inv(s) && Enabled(s, a) && (a.Claim? || a.Read? || a.Fail? || a.Crash? || a.Stamp?)
    ensures !Do(s, a).workers[a.id].pc.Finalizing? && !Do(s, a).workers[a.id].pc.ReadBack?
    ensures !Do(s, a).ledger.runs[a.id].phase.Finalized? && !Do(s, a).ledger.runs[a.id].phase.Committed?
  {
    hide Ledger.Inv, LocksApart, TablesOk, WorkersOk;
    assert InStep(s.workers[a.id], s.ledger.runs[a.id]);
  }

  lemma DoKeepsReply(s: State, a: Action, j: nat)
    requires Inv(s) && RepliesTrue(s) && Enabled(s, a) && Later(s.tables, Do(s, a).tables) && j in s.workers
    requires j in s.ledger.runs && j in Do(s, a).workers && j in Do(s, a).ledger.runs
    ensures RepliesWell(Do(s, a).tables, Do(s, a).workers[j], Do(s, a).ledger.runs[j].phase)
  {
    assert RepliesWell(s.tables, s.workers[j], s.ledger.runs[j].phase);
    if !Acts(a, j) {
      OthersReplies(s, a, j);
    } else if a.Body? {
      BodyReplies(s, j);
    } else if a.Commit? {
      CommitReplies(s, j);
    } else if a.Finalize? {
      FinalizeReplies(s, j);
    } else {
      NoReplyYet(s, a);
    }
  }

  lemma OthersReplies(s: State, a: Action, j: nat)
    requires Inv(s) && Enabled(s, a) && Later(s.tables, Do(s, a).tables) && j in s.workers && !Acts(a, j)
    requires j in s.ledger.runs && j in Do(s, a).workers && j in Do(s, a).ledger.runs
    requires RepliesWell(s.tables, s.workers[j], s.ledger.runs[j].phase)
    ensures RepliesWell(Do(s, a).tables, Do(s, a).workers[j], Do(s, a).ledger.runs[j].phase)
  {
    OthersInStep(s, a, j);
    OthersKeepRows(s, a, j);
    hide Do, Enabled, Inv, Later, RepliesWell;
    RepliesStay(s.tables, Do(s, a).tables, s.workers[j], s.ledger.runs[j].phase);
    SameReplies(Do(s, a).tables, s.workers[j], Do(s, a).workers[j], s.ledger.runs[j].phase);
  }

  lemma SameReplies(t: Tables, v: Worker, w: Worker, phase: Ledger.Phase<Reply>)
    requires v.op == w.op && v.pc == w.pc && v.rows == w.rows && RepliesWell(t, v, phase)
    ensures RepliesWell(t, w, phase)
  {
  }

  lemma OthersKeepRows(s: State, a: Action, j: nat)
    requires Enabled(s, a) && j in s.workers && !Acts(a, j)
    ensures j in Do(s, a).workers && Do(s, a).workers[j].rows == s.workers[j].rows
  {
    hide Execute, Needs, Committed, Ledger.Do, Ledger.Enabled;
  }

  lemma DoKeepsReplies(s: State, a: Action)
    requires Inv(s) && RepliesTrue(s) && Enabled(s, a)
    ensures Inv(Do(s, a)) && RepliesTrue(Do(s, a))
  {
    DoKeepsInv(s, a);
    DoAdvances(s, a);
    var u := Do(s, a);
    forall j | j in u.workers ensures RepliesWell(u.tables, u.workers[j], u.ledger.runs[j].phase) {
      if j in s.workers {
        DoKeepsReply(s, a, j);
      }
    }
  }

  lemma {:induction false} RunKeepsReplies(s: State, acts: seq<Action>)
    requires Inv(s) && RepliesTrue(s) && CanRun(s, acts)
    ensures Inv(Run(s, acts)) && RepliesTrue(Run(s, acts))
    decreases |acts|
  {
    if acts != [] {
      DoKeepsReplies(s, acts[0]);
      RunKeepsReplies(Do(s, acts[0]), acts[1..]);
    }
  }

  lemma CommittedReply(s: State, j: nat)
    requires Inv(s) && RepliesTrue(s) && j in s.ledger.runs && s.ledger.runs[j].phase.Committed?
    ensures Truthful(s.tables.payouts, s.ledger.runs[j].hash, s.ledger.runs[j].phase.response)
  {
    hide Ledger.Inv, LocksApart;
    assert InStep(s.workers[j], s.ledger.runs[j]) && RepliesWell(s.tables, s.workers[j], s.ledger.runs[j].phase);
    assert WorkerOk(s.advisory, s.tables, s.workers[j]);
    assert View(s.tables, s.workers[j]) == s.tables.payouts;
  }

  /**
   Every reply a call has committed stays true of the payouts ever after: the generated row is the settlement of
   that driver and month, `true` from approve means approved by that approver, `true` from process means completed
   with that payment. By the ledger, a replay under the same key returns that same reply.
   */
  lemma CommittedRepliesAreTrue(advisory: bool, acts: seq<Action>, j: nat)
    requires CanRun(Init(advisory), acts) && j in Run(Init(advisory), acts).ledger.runs
    requires Run(Init(advisory), acts).ledger.runs[j].phase.Committed?
    ensures var s := Run(Init(advisory), acts);
            Truthful(s.tables.payouts, s.ledger.runs[j].hash, s.ledger.runs[j].phase.response)
  {
    RunKeepsReplies(Init(advisory), acts);
    CommittedReply(Run(Init(advisory), acts), j);
  }

  // ---------------------------------------------------------------- retries

  /** The statements of a retry. */
  function Retry(i: nat, op: Op, name: string): seq<Action> { [Begin(i, op, Some(name)), Claim(i), Read(i), Commit(i)] }

  lemma Steps(s: State, a: Action, rest: seq<Action>)
    requires Enabled(s, a) && CanRun(Do(s, a), rest)
    ensures CanRun(s, [a] + rest) && Run(s, [a] + rest) == Run(Do(s, a), rest)
  {
    assert ([a] + rest)[1..] == rest;
  }

  lemma ClaimDoes(s: State, a: Action)
    requires (a.Claim? || a.Read?) && a.id in s.workers && Ledger.Enabled(s.ledger, OnLedger(s, a).value)
    ensures Enabled(s, a) && var l := Ledger.Do(s.ledger, OnLedger(s, a).value);
            && a.id in l.runs
            && Do(s, a) == s.(ledger := l, workers := s.workers[a.id := AfterClaim(s.workers[a.id], l.runs[a.id].phase)])
  {
  }

  /** The key under which a call is entered in the ledger. */
  function KeyOf(op: Op, name: Option<string>): Option<Key> {
    if name.None? then None else Some(Key(ScopeOf(op), name.value))
  }

  lemma BeginDoes(s: State, i: nat, op: Op, name: Option<string>)
    requires i !in s.workers && i !in s.ledger.runs && Callable(op)
    ensures Enabled(s, Begin(i, op, name)) && Ledger.Enabled(s.ledger, Ledger.Begin(i, KeyOf(op, name), op))
    ensures Do(s, Begin(i, op, name)) ==
            s.(ledger := Ledger.Do(s.ledger, Ledger.Begin(i, KeyOf(op, name), op)),
               workers := s.workers[i := Worker(op, Claiming, {}, map[], {}, {}, NO_HISTORY)])
  {
  }

  lemma RetryRuns(s: State, i: nat, op: Op, key: Key)
    requires Ledger.Inv(s.ledger) && i !in s.workers && i !in s.ledger.runs && Callable(op) && key.scope == ScopeOf(op)
    requires key in s.ledger.rows && s.ledger.rows[key].status.Completed? && s.ledger.rows[key].hash == op
    ensures CanRun(s, Retry(i, op, key.name))
    ensures var t := Run(s, Retry(i, op, key.name));
            i in t.ledger.runs && t.ledger.runs[i].phase == Ledger.Returned(s.ledger.rows[key].response) && t.tables == s.tables
  {
    Ledger.RetryReplays(s.ledger, i, key);
    var b: Action := Begin(i, op, Some(key.name));
    BeginDoes(s, i, op, Some(key.name));
    hide Do, Enabled, Ledger.Do, Ledger.Enabled, Ledger.Replays, Ledger.Inv;
    var s1 := Do(s, b);
    RetryGoesOn(s1, i, s.ledger.rows[key].response);
    Steps(s, b, [Claim(i)] + ([Read(i)] + ([Commit(i)] + [])));
    assert Retry(i, op, key.name) == [b] + ([Claim(i)] + ([Read(i)] + ([Commit(i)] + [])));
  }

  lemma RetryGoesOn(s: State, i: nat, stored: Ledger.Stored<Reply>)
    requires i in s.workers && s.workers[i].rows == map[] && s.workers[i].links == {} && s.workers[i].pays == {}
    requires Ledger.Replays(s.ledger, i, stored)
    ensures var rest := [Claim(i)] + ([Read(i)] + ([Commit(i)] + []));
            && CanRun(s, rest) && i in Run(s, rest).ledger.runs
            && Run(s, rest).ledger.runs[i].phase == Ledger.Returned(stored) && Run(s, rest).tables == s.tables
  {
    hide Ledger.Do, Ledger.Enabled;
    ClaimDoes(s, Claim(i));
    var s2 := Do(s, Claim(i));
    ClaimDoes(s2, Read(i));
    var s3 := Do(s2, Read(i));
    NothingWritten(s.tables, s3.workers[i]);
    Steps(s3, Commit(i), []);
    Steps(s2, Read(i), [Commit(i)] + []);
    Steps(s, Claim(i), [Read(i)] + ([Commit(i)] + []));
  }

  /**
   In every reachable state a retry of a completed call gets the reply of the call that committed, which is still true,
   and writes nothing.
   */
  lemma RetryIsReplayed(advisory: bool, acts: seq<Action>, i: nat, key: Key) returns (c: nat, reply: Reply)
    requires CanRun(Init(advisory), acts)
    requires var s := Run(Init(advisory), acts);
             i !in s.workers && key in s.ledger.rows && s.ledger.rows[key].status.Completed?
    ensures var s := Run(Init(advisory), acts);
            var op := s.ledger.rows[key].hash;
            && Ledger.CommittedAs(s.ledger, c, key, op, reply) && Truthful(s.tables.payouts, op, reply)
            && CanRun(s, Retry(i, op, key.name))
            && var t := Run(s, Retry(i, op, key.name));
               i in t.ledger.runs && t.ledger.runs[i].phase == Ledger.Returned(Ledger.Response(reply)) && t.tables == s.tables
  {
    ReachableInv(advisory, acts);
    var s := Run(Init(advisory), acts);
    c, reply := Ledger.CompletedIsReplayed(s.ledger, i, key);
    assert Ledger.RowExplained(s.ledger, key);
    assert InStep(s.workers[c], s.ledger.runs[c]);
    CommittedRepliesAreTrue(advisory, acts, c);
    RetryRuns(s, i, s.ledger.rows[key].hash, key);
  }

  /** A replay returns a reply that is still true. */
  lemma ReplayedRepliesAreTrue(advisory: bool, acts: seq<Action>, j: nat) returns (reply: Reply)
    requires CanRun(Init(advisory), acts) && j in Run(Init(advisory), acts).ledger.runs
    requires Run(Init(advisory), acts).ledger.runs[j].phase.Returned?
    ensures var s := Run(Init(advisory), acts);
            s.ledger.runs[j].phase.stored == Ledger.Response(reply) &&
            Truthful(s.tables.payouts, s.ledger.runs[j].hash, reply)
  {
    RunsOnLedger(Init(advisory), acts);
    var c;
    c, reply := Ledger.ReplayIsFaithful(Trace(Init(advisory), acts), j);
    CommittedRepliesAreTrue(advisory, acts, c);
  }
}

/** A concrete run in which a settlement's bonus is not the sum of the incentives it links. */
module SettlementDrift {
  import opened Prelude
  import opened Settlement
  import opened SettlementSafety
  import Ledger

  /** Transaction 0 runs alone, without an idempotency key. */
  function Alone(tables: Tables, phase: Ledger.Phase<Reply>, w: Worker): State {
    State(true, tables, Ledger.State(map[], map[0 := Ledger.Attempt(None, w.op, phase)]), map[0 := w])
  }

  lemma Step(s: State, a: Action, rest: seq<Action>, u: State)
    requires Enabled(s, a) && Do(s, a) == u && CanRun(u, rest)
    ensures CanRun(s, [a] + rest) && Run(s, [a] + rest) == Run(u, rest)
  {
    assert ([a] + rest)[1..] == rest;
  }

  lemma BodyAlone(t: Tables, w: Worker, rest: seq<Action>)
    requires CanExecute(w) && CanRun(Alone(After(t, w), Ledger.Working, Execute(true, t, w)), rest)
    ensures CanRun(Alone(t, Ledger.Working, w), [Body(0)] + rest)
    ensures Run(Alone(t, Ledger.Working, w), [Body(0)] + rest) ==
            Run(Alone(After(t, w), Ledger.Working, Execute(true, t, w)), rest)
  {
    var s := Alone(t, Ledger.Working, w);
    assert Enabled(s, Body(0));
    assert Do(s, Body(0)).workers == map[0 := Execute(true, t, w)];
    Step(s, Body(0), rest, Alone(After(t, w), Ledger.Working, Execute(true, t, w)));
  }

  const NO_TABLES := Tables([], [], map[], 0, map[])

  function At(op: Op, pc: Pc): Worker
    requires op.Generate? && WindowKnown(op)
  {
    Worker(op, pc, {Advisory(op.driver, OpWindow(op))}, map[], {}, {}, NO_HISTORY)
  }

  lemma ReadsNothing(op: Op)
    requires op.Generate? && WindowKnown(op)
    ensures Execute(true, NO_TABLES, At(op, FindWindow)) == At(op, SumFees)
    ensures Execute(true, NO_TABLES, At(op, SumFees)) == At(op, SumBonus(0))
    ensures Execute(true, NO_TABLES, At(op, SumBonus(0))) == At(op, InsertPayout(0, 0))
  {
    assert Settled(map[], op.driver, OpWindow(op)) == {};
    assert Needs(true, NO_TABLES, At(op, FindWindow)) == {};
    assert Deliveries([], op.driver, OpWindow(op)) == {};
  }

  /** A generate call runs over empty tables up to its INSERT. */
  lemma ReachesInsert(op: Op, rest: seq<Action>)
    requires op.Generate? && WindowKnown(op) && CanRun(Alone(NO_TABLES, Ledger.Working, At(op, InsertPayout(0, 0))), rest)
    ensures var acts := [Begin(0, op, None)] + ([Claim(0)] + ([Body(0)] + ([Body(0)] + ([Body(0)] + ([Body(0)] + rest)))));
            CanRun(Init(true), acts) && Run(Init(true), acts) == Run(Alone(NO_TABLES, Ledger.Working, At(op, InsertPayout(0, 0))), rest)
  {
    ReadsNothing(op);
    BodyAlone(NO_TABLES, At(op, SumBonus(0)), rest);
    BodyAlone(NO_TABLES, At(op, SumFees), [Body(0)] + rest);
    BodyAlone(NO_TABLES, At(op, FindWindow), [Body(0)] + ([Body(0)] + rest));
    StartsAlone(op, [Body(0)] + ([Body(0)] + ([Body(0)] + rest)));
  }

  lemma StartsAlone(op: Op, rest: seq<Action>)
    requires op.Generate? && WindowKnown(op) && CanRun(Alone(NO_TABLES, Ledger.Working, At(op, FindWindow)), rest)
    ensures var acts := [Begin(0, op, None)] + ([Claim(0)] + ([Body(0)] + rest));
            CanRun(Init(true), acts) && Run(Init(true), acts) == Run(Alone(NO_TABLES, Ledger.Working, At(op, FindWindow)), rest)
  {
    var w := At(op, TakeAdvisory).(locks := {});
    assert Execute(true, NO_TABLES, w) == At(op, FindWindow);
    BodyAlone(NO_TABLES, w, rest);
    ClaimsAlone(op, w, [Body(0)] + rest);
  }

  lemma ClaimsAlone(op: Op, w: Worker, rest: seq<Action>)
    requires op.Generate? && WindowKnown(op) && w == At(op, TakeAdvisory).(locks := {})
    requires CanRun(Alone(NO_TABLES, Ledger.Working, w), rest)
    ensures var acts := [Begin(0, op, None)] + ([Claim(0)] + rest);
            CanRun(Init(true), acts) && Run(Init(true), acts) == Run(Alone(NO_TABLES, Ledger.Working, w), rest)
  {
    var idle := w.(pc := Claiming);
    var s := Alone(NO_TABLES, Ledger.Ready, idle);
    assert Do(s, Claim(0)).workers == map[0 := w];
    assert Do(s, Claim(0)).ledger == Alone(NO_TABLES, Ledger.Working, w).ledger;
    Step(s, Claim(0), rest, Alone(NO_TABLES, Ledger.Working, w));
    assert Do(Init(true), Begin(0, op, None)).workers == map[0 := idle];
    assert Do(Init(true), Begin(0, op, None)).ledger == s.ledger;
    Step(Init(true), Begin(0, op, None), [Claim(0)] + rest, s);
  }

  // ---------------------------------------------------------------- the change, and what is linked

  function Row0(op: Op): Payout
    requires op.Generate? && WindowKnown(op)
  {
    Payout(op.driver, OpWindow(op), 0, 0, 0, Pending, None, None)
  }

  function Inserting(op: Op, drift: int): Worker
    requires op.Generate? && WindowKnown(op)
  {
    At(op, InsertPayout(0, 0)).(past := History([], 0, drift, {0}))
  }

  function Linking(op: Op, drift: int): Worker
    requires op.Generate? && WindowKnown(op)
  {
    Worker(op, LinkIncentives(0), {Advisory(op.driver, OpWindow(op)), WindowEntry(op.driver, OpWindow(op)), PayoutRow(0)},
           map[0 := Row0(op)], {}, {}, History([], 0, drift, {0}))
  }

  function Ending(op: Op, drift: int, pc: Pc): Worker
    requires op.Generate? && WindowKnown(op)
  {
    Linking(op, drift).(pc := pc, links := {0}, past := History([], 0, drift, {}),
                       locks := Linking(op, drift).locks + {IncentiveRow(0)})
  }

  lemma ChangesAlone(op: Op, i: Incentive, rest: seq<Action>)
    requires op.Generate? && WindowKnown(op) && IsEligible(i, op.driver, OpWindow(op))
    requires CanRun(Alone(NO_TABLES.(incentives := [i]), Ledger.Working, Inserting(op, i.amount)), rest)
    ensures var s := Alone(NO_TABLES, Ledger.Working, At(op, InsertPayout(0, 0)));
            CanRun(s, [ChangeIncentive(0, i)] + rest) &&
            Run(s, [ChangeIncentive(0, i)] + rest) ==
            Run(Alone(NO_TABLES.(incentives := [i]), Ledger.Working, Inserting(op, i.amount)), rest)
  {
    var s := Alone(NO_TABLES, Ledger.Working, At(op, InsertPayout(0, 0)));
    assert Drifted(At(op, InsertPayout(0, 0)), [], 0, i) == Inserting(op, i.amount) by {
      assert {} + {0} == {0};
    }
    assert Reincentivised(NO_TABLES, 0, i) == NO_TABLES.(incentives := [i]);
    assert Do(s, ChangeIncentive(0, i)).workers == map[0 := Inserting(op, i.amount)];
    Step(s, ChangeIncentive(0, i), rest, Alone(NO_TABLES.(incentives := [i]), Ledger.Working, Inserting(op, i.amount)));
  }

  lemma InsertsAndLinks(op: Op, i: Incentive)
    requires op.Generate? && WindowKnown(op) && IsEligible(i, op.driver, OpWindow(op))
    ensures var t := NO_TABLES.(incentives := [i]);
            Execute(true, t, Inserting(op, i.amount)) == Linking(op, i.amount) &&
            Execute(true, Bumped(t), Linking(op, i.amount)) == Ending(op, i.amount, Finalizing(Row(0, Row0(op))))
  {
    assert Settled(map[], op.driver, OpWindow(op)) == {};
    assert Eligible([i], op.driver, OpWindow(op)) == {0};
  }

  lemma EndsAlone(op: Op, t: Tables, drift: int, u: Tables)
    requires op.Generate? && WindowKnown(op) && u == Committed(t, Ending(op, drift, Committing))
    ensures var s := Alone(t, Ledger.Working, Ending(op, drift, Finalizing(Row(0, Row0(op)))));
            var rest := [Finalize(0)] + ([Commit(0)] + []);
            CanRun(s, rest) && Run(s, rest).tables == u
  {
    var reply := Row(0, Row0(op));
    var s := Alone(t, Ledger.Finalized(reply), Ending(op, drift, Committing));
    Step(s, Commit(0), [], Do(s, Commit(0)));
    FinalizesAlone(op, t, drift, [Commit(0)] + []);
  }

  lemma FinalizesAlone(op: Op, t: Tables, drift: int, rest: seq<Action>)
    requires op.Generate? && WindowKnown(op)
    requires CanRun(Alone(t, Ledger.Finalized(Row(0, Row0(op))), Ending(op, drift, Committing)), rest)
    ensures var s := Alone(t, Ledger.Working, Ending(op, drift, Finalizing(Row(0, Row0(op)))));
            CanRun(s, [Finalize(0)] + rest) &&
            Run(s, [Finalize(0)] + rest) == Run(Alone(t, Ledger.Finalized(Row(0, Row0(op))), Ending(op, drift, Committing)), rest)
  {
    var reply := Row(0, Row0(op));
    var s := Alone(t, Ledger.Working, Ending(op, drift, Finalizing(reply)));
    var u := Alone(t, Ledger.Finalized(reply), Ending(op, drift, Committing));
    assert Do(s, Finalize(0)).workers == u.workers;
    assert Do(s, Finalize(0)).ledger == u.ledger;
    Step(s, Finalize(0), rest, u);
  }

  lemma LinkedSum(op: Op, i: Incentive)
    requires op.Generate? && WindowKnown(op)
    ensures var u := Committed(Bumped(NO_TABLES.(incentives := [i])), Ending(op, i.amount, Committing));
            0 in u.payouts && u.payouts[0].bonus == 0 && SumAmounts(u.incentives, Linked(u.incentives, 0)) == i.amount
  {
    var w := Ending(op, i.amount, Committing);
    var u := Committed(Bumped(NO_TABLES.(incentives := [i])), w);
    assert 0 in w.rows && w.rows.Keys == {0};
    assert u.incentives == [i.(settlement := Some(0))];
    assert u.incentives[..0] == [];
    assert 0 in Linked(u.incentives, 0);
  }

  /**
   If an incentive is approved between the SUM and the claiming UPDATE, the settlement links it without counting
   it: its bonus is 0 while its linked incentives sum to the amount of that incentive.
   */
  lemma DriftHappens(op: Op, i: Incentive) returns (acts: seq<Action>)
    requires op.Generate? && WindowKnown(op) && IsEligible(i, op.driver, OpWindow(op))
    ensures CanRun(Init(true), acts)
    ensures var t := Run(Init(true), acts).tables;
            0 in t.payouts && t.payouts[0].bonus == 0 && SumAmounts(t.incentives, Linked(t.incentives, 0)) == i.amount
  {
    var t := NO_TABLES.(incentives := [i]);
    LinkedSum(op, i);
    EndsAlone(op, Bumped(t), i.amount, Committed(Bumped(t), Ending(op, i.amount, Committing)));
    var rest := [Finalize(0)] + ([Commit(0)] + []);
    InsertsAndLinks(op, i);
    BodyAlone(Bumped(t), Linking(op, i.amount), rest);
    BodyAlone(t, Inserting(op, i.amount), [Body(0)] + rest);
    rest := [Body(0)] + ([Body(0)] + rest);
    ChangesAlone(op, i, rest);
    rest := [ChangeIncentive(0, i)] + rest;
    ReachesInsert(op, rest);
    acts := [Begin(0, op, None)] + ([Claim(0)] + ([Body(0)] + ([Body(0)] + ([Body(0)] + ([Body(0)] + rest)))));
  }
}
