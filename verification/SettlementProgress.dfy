/** The payout transactions never deadlock: they all take their locks in one order. */
module SettlementProgress {
  import opened Prelude
  import opened Settlement
  import opened SettlementSafety
  import opened SettlementResults
  import opened LockOrder
  import Ledger

  /** Key row, advisory lock, settlement row, entry of the unique index, incentive rows. */
  function LockRank(l: Lock): nat {
    match l
    case KeyRow(_) => 0
    case Advisory(_, _) => 1
    case PayoutRow(_) => 2
    case WindowEntry(_, _) => 3
    case IncentiveRow(_) => 4
  }

  /** The locks a transaction holds at this point all rank below this. */
  function Ceiling(pc: Pc): nat {
    match pc
    case Claiming | TakeAdvisory | FindForApproval | FindForPayment => 1
    case FindWindow | SumFees | SumBonus(_) | InsertPayout(_, _) | ReadBack => 2
    case MarkApproved | MarkCompleted | PayIncentives => 3
    case LinkIncentives(_) => 4
    case _ => 5
  }

  ghost predicate RanksOk(w: Worker) {
    forall l | l in w.locks :: 1 <= LockRank(l) < Ceiling(w.pc)
  }

  lemma GenerateKeepsRanks(advisory: bool, t: Tables, w: Worker)
    requires CanExecute(w) && RanksOk(w) && w.op.Generate?
    ensures RanksOk(Execute(advisory, t, w))
  {
    hide Settled, Eligible, RowFor, Deliveries, SumFeesOf, SumAmounts;
    if w.pc.FindWindow? {
      RowForFinds(t, w.op.driver, OpWindow(w.op));
    }
  }

  lemma ExecuteKeepsRanks(advisory: bool, t: Tables, w: Worker)
    requires CanExecute(w) && RanksOk(w)
    ensures RanksOk(Execute(advisory, t, w))
  {
    hide Unpaid;
    if w.op.Generate? {
      GenerateKeepsRanks(advisory, t, w);
    }
  }

  lemma DoKeepsRanks(s: State, a: Action, j: nat)
    requires Inv(s) && Enabled(s, a) && j in Do(s, a).workers
    requires j in s.workers ==> RanksOk(s.workers[j])
    ensures RanksOk(Do(s, a).workers[j])
  {
    hide Ledger.Inv, LocksApart, TablesOk;
    if j in s.workers {
      assert InStep(s.workers[j], s.ledger.runs[j]) && WorkerOk(s.advisory, s.tables, s.workers[j]);
      if a == Body(j) {
        ExecuteKeepsRanks(s.advisory, s.tables, s.workers[j]);
      }
    }
  }

  lemma {:induction false} RunKeepsRanks(s: State, acts: seq<Action>)
    requires Inv(s) && CanRun(s, acts) && forall j | j in s.workers :: RanksOk(s.workers[j])
    ensures Inv(Run(s, acts)) && forall j | j in Run(s, acts).workers :: RanksOk(Run(s, acts).workers[j])
    decreases |acts|
  {
    if acts != [] {
      DoKeepsInv(s, acts[0]);
      forall j | j in Do(s, acts[0]).workers ensures RanksOk(Do(s, acts[0]).workers[j]) {
        DoKeepsRanks(s, acts[0], j);
      }
      RunKeepsRanks(Do(s, acts[0]), acts[1..]);
    }
  }

  /** What a transaction holds and waits for. */
  ghost function SessionOf(s: State, j: nat): Session<Lock>
    requires InSteps(s) && j in s.workers
  {
    var w, run := s.workers[j], s.ledger.runs[j];
    Session(w.locks + if Ledger.Claimed(run) then {KeyRow(run.key.value)} else {},
            if run.phase.Ready? then (if run.key.Some? then {KeyRow(run.key.value)} else {})
            else if CanExecute(w) then Needs(s.advisory, s.tables, w) - w.locks
            else {})
  }

  ghost function Sessions(s: State): map<nat, Session<Lock>>
    requires InSteps(s)
  {
    map j | j in s.workers :: SessionOf(s, j)
  }

  lemma NeedsRankHigh(advisory: bool, t: Tables, w: Worker)
    requires CanExecute(w) && (w.pc.MarkApproved? || w.pc.MarkCompleted? ==> Needs(advisory, t, w) <= w.locks)
    ensures forall l | l in Needs(advisory, t, w) - w.locks :: LockRank(l) >= Ceiling(w.pc)
  {
  }

  lemma SessionAscends(s: State, j: nat)
    requires Inv(s) && j in s.workers && RanksOk(s.workers[j])
    ensures Ascending(SessionOf(s, j), LockRank)
    ensures forall l | l in SessionOf(s, j).held :: LockRank(l) <= 4
  {
    var w := s.workers[j];
    assert InStep(w, s.ledger.runs[j]) && WorkerOk(s.advisory, s.tables, w);
    if CanExecute(w) {
      NeedsRankHigh(s.advisory, s.tables, w);
    }
  }

  /** In every reachable state, no set of unfinished payout transactions all wait for each other. */
  lemma NoDeadlock(advisory: bool, acts: seq<Action>, among: set<nat>) returns (i: nat)
    requires CanRun(Init(advisory), acts)
    requires among != {} && among <= Run(Init(advisory), acts).workers.Keys
    ensures Inv(Run(Init(advisory), acts)) && i in among
    ensures !BlockedWithin(Sessions(Run(Init(advisory), acts)), i, among)
  {
    RunKeepsRanks(Init(advisory), acts);
    var s := Run(Init(advisory), acts);
    forall j | j in among ensures Ascending(Sessions(s)[j], LockRank)
    {
      SessionAscends(s, j);
    }
    forall j, l | j in among && l in Sessions(s)[j].held ensures LockRank(l) <= 4 {
      SessionAscends(s, j);
    }
    i := SomeoneMoves(Sessions(s), LockRank, 4, among);
  }

  /** The next statement of a transaction. A generate call whose period is no valid date throws instead. */
  function NextAction(w: Worker, run: Ledger.Attempt<Key, Op, Reply>, j: nat): Action {
    match run.phase
    case Ready => Claim(j)
    case Conflicted => Read(j)
    case Working =>
      if w.pc.Finalizing? then Finalize(j)
      else if w.pc.TakeAdvisory? && !WindowKnown(w.op) then Fail(j)
      else Body(j)
    case Stamping => Stamp(j)
    case _ => Commit(j)
  }

  /** A transaction that waits for no unfinished one waits for nobody: a finished one holds nothing. */
  lemma NobodyBlocks(s: State, i: nat, among: set<nat>)
    requires Inv(s) && i in among && i in s.workers
    requires among == set j | j in s.workers && !Ledger.Finished(s.ledger.runs[j].phase)
    requires !BlockedWithin(Sessions(s), i, among)
    ensures forall j | j in s.workers && j != i :: !Blocks(SessionOf(s, j), SessionOf(s, i))
  {
    forall j | j in s.workers && j != i ensures !Blocks(SessionOf(s, j), SessionOf(s, i)) {
      assert InStep(s.workers[j], s.ledger.runs[j]) && WorkerOk(s.advisory, s.tables, s.workers[j]);
      assert Sessions(s)[j] == SessionOf(s, j) && Sessions(s)[i] == SessionOf(s, i);
    }
  }

  lemma CanClaim(s: State, i: nat)
    requires Inv(s) && i in s.workers && s.ledger.runs[i].phase.Ready?
    requires forall j | j in s.workers && j != i :: !Blocks(SessionOf(s, j), SessionOf(s, i))
    ensures Enabled(s, Claim(i))
  {
    var key := s.ledger.runs[i].key;
    if key.Some? {
      forall j | j in s.workers && j != i ensures !(Ledger.Claimed(s.ledger.runs[j]) && s.ledger.runs[j].key == key) {
        assert KeyRow(key.value) in SessionOf(s, i).wanted;
      }
    }
  }

  lemma CanRunBody(s: State, i: nat)
    requires Inv(s) && i in s.workers && s.ledger.runs[i].phase.Working? && CanExecute(s.workers[i])
    requires forall j | j in s.workers && j != i :: !Blocks(SessionOf(s, j), SessionOf(s, i))
    ensures Enabled(s, Body(i))
  {
    forall j | j in s.workers && j != i
      ensures s.workers[j].locks !! Needs(s.advisory, s.tables, s.workers[i])
    {
      assert s.workers[j].locks <= SessionOf(s, j).held;
    }
  }

  lemma UnblockedCanStep(s: State, i: nat, among: set<nat>)
    requires Inv(s) && i in among && i in s.workers
    requires among == set j | j in s.workers && !Ledger.Finished(s.ledger.runs[j].phase)
    requires !BlockedWithin(Sessions(s), i, among)
    ensures Enabled(s, NextAction(s.workers[i], s.ledger.runs[i], i))
  {
    var w, run := s.workers[i], s.ledger.runs[i];
    assert InStep(w, run) && WorkerOk(s.advisory, s.tables, w) && Ledger.RunOk(s.ledger, run);
    NobodyBlocks(s, i, among);
    if run.phase.Ready? {
      CanClaim(s, i);
    } else if run.phase.Working? && CanExecute(w) {
      CanRunBody(s, i);
    }
  }

  /** As long as some payout transaction is unfinished, there is one that nobody blocks and that can take its next step. */
  lemma SomeoneCanStep(advisory: bool, acts: seq<Action>, j: nat) returns (i: nat)
    requires CanRun(Init(advisory), acts)
    requires j in Run(Init(advisory), acts).ledger.runs
    requires !Ledger.Finished(Run(Init(advisory), acts).ledger.runs[j].phase)
    ensures var s := Run(Init(advisory), acts);
            && i in s.workers && i in s.ledger.runs && !Ledger.Finished(s.ledger.runs[i].phase)
            && InSteps(s) && (forall k | k in s.workers && k != i :: !Blocks(SessionOf(s, k), SessionOf(s, i)))
            && Enabled(s, NextAction(s.workers[i], s.ledger.runs[i], i))
  {
    ReachableInv(advisory, acts);
    var s := Run(Init(advisory), acts);
    var among := set k | k in s.workers && !Ledger.Finished(s.ledger.runs[k].phase);
    assert j in among;
    i := NoDeadlock(advisory, acts, among);
    NobodyBlocks(s, i, among);
    UnblockedCanStep(s, i, among);
  }
}
