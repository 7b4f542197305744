/** The loyalty and referral transactions never deadlock: they all take their locks in one order. */
module LoyaltyProgress {
  import opened Prelude
  import opened Loyalty
  import opened LoyaltySafety
  import opened LoyaltyResults
  import opened LockOrder
  import Ledger

  /** Key row, referral row, user row, loyalty row. */
  function LockRank(l: Lock): nat {
    match l
    case KeyRow(_) => 0
    case ReferralRow(_) => 1
    case UserRow(_) => 2
    case AccountRow(_) => 3
  }

  /** The locks a transaction holds at this point all rank below this. */
  function Ceiling(w: Worker): nat {
    match w.pc
    case AwardUpdate(_) | AwardEnsure(_) => 3
    case AwardAgain(g) => if AccountRow(g.user) in w.locks then 4 else 3
    case AwardTier(_, _) | AwardJournal(_) | Debit(_) | RedeemJournal(_) | InsertRedemption(_) | ExpireJournal => 4
    case MarkUser(_) => 2
    case MarkRewarded | ReadReferral | Finalizing(_) | Committing | Over => 4
    case _ => 1
  }

  /** The locks already held when a statement asks for them again. */
  function Kept(w: Worker): set<Lock> {
    match w.pc
    case AwardTier(g, _) => {AccountRow(g.user)}
    case Debit(_) => if w.op.Redeem? then {AccountRow(w.op.user)} else {}
    case MarkRewarded => if w.op.Complete? then {ReferralRow(w.op.referral)} else {}
    case _ => {}
  }

  ghost predicate RanksOk(w: Worker) {
    (forall l | l in w.locks :: 1 <= LockRank(l) < Ceiling(w)) && Kept(w) <= w.locks
  }

  lemma AwardKeepsRanks(t: Tables, w: Worker)
    requires WorkerOk(t, w) && CanExecute(t, w) && RanksOk(w) && InAward(w.pc)
    ensures RanksOk(Execute(t, w))
  {
    if w.op.Complete? && w.pc.AwardJournal? {
      assert ReferralRow(w.op.referral) in w.locks;
    }
  }

  lemma OthersKeepRanks(t: Tables, w: Worker)
    requires WorkerOk(t, w) && CanExecute(t, w) && RanksOk(w) && !InAward(w.pc)
    ensures RanksOk(Execute(t, w))
  {
  }

  lemma BodyKeepsRanks(s: State, j: nat)
    requires Inv(s) && Enabled(s, Body(j)) && RanksOk(s.workers[j])
    ensures RanksOk(Do(s, Body(j)).workers[j])
  {
    var w := s.workers[j];
    assert WorkerOk(s.tables, w);
    if InAward(w.pc) {
      AwardKeepsRanks(s.tables, w);
    } else {
      OthersKeepRanks(s.tables, w);
    }
  }

  lemma StartKeepsRanks(s: State, a: Action)
    requires Inv(s) && Enabled(s, a) && (a.Claim? || a.Read?) && RanksOk(s.workers[a.id])
    ensures RanksOk(Do(s, a).workers[a.id])
  {
    assert InStep(s.workers[a.id], s.ledger.runs[a.id]) && WorkerOk(s.tables, s.workers[a.id]);
  }

  lemma PhaseKeepsRanks(s: State, a: Action)
    requires Enabled(s, a) && (a.Finalize? || a.Commit? || a.Fail? || a.Crash? || a.Stamp?) && RanksOk(s.workers[a.id])
    ensures RanksOk(Do(s, a).workers[a.id])
  {
  }

  lemma DoKeepsRanks(s: State, a: Action, j: nat)
    requires Inv(s) && Enabled(s, a) && j in s.workers && RanksOk(s.workers[j])
    ensures RanksOk(Do(s, a).workers[j])
  {
    if !Acts(a, j) {
      OthersInStep(s, a, j);
    } else if a.Body? {
      BodyKeepsRanks(s, j);
    } else if a.Claim? || a.Read? {
      StartKeepsRanks(s, a);
    } else {
      PhaseKeepsRanks(s, a);
    }
  }

  lemma {:induction false} RunKeepsRanks(s: State, acts: seq<Action>)
    requires Inv(s) && CanRun(s, acts) && forall j | j in s.workers :: RanksOk(s.workers[j])
    ensures Inv(Run(s, acts)) && forall j | j in Run(s, acts).workers :: RanksOk(Run(s, acts).workers[j])
    decreases |acts|
  {
    if acts != [] {
      DoKeepsInv(s, acts[0]);
      forall j | j in Do(s, acts[0]).workers ensures RanksOk(Do(s, acts[0]).workers[j]) {
        if j in s.workers {
          DoKeepsRanks(s, acts[0], j);
        }
      }
      RunKeepsRanks(Do(s, acts[0]), acts[1..]);
    }
  }

  /** A statement of the body comes next, whether or not it will throw once it has its locks. */
  predicate AtStatement(w: Worker, run: Ledger.Attempt<Key, Op, Reply>) {
    run.phase.Working? && InBody(w.pc) && PcFits(w.op, w.pc)
  }

  /**
   What a transaction holds and waits for. A statement that locks rows waits for them before it looks at them, so it
   waits even if it is going to throw.
   */
  ghost function SessionOf(s: State, j: nat): Session<Lock>
    requires InSteps(s) && j in s.workers
  {
    var w, run := s.workers[j], s.ledger.runs[j];
    Session(w.locks + if Ledger.Claimed(run) then {KeyRow(run.key.value)} else {},
            if run.phase.Ready? then (if run.key.Some? then {KeyRow(run.key.value)} else {})
            else if AtStatement(w, run) then Needs(s.tables, w) - w.locks
            else {})
  }

  ghost function Sessions(s: State): map<nat, Session<Lock>>
    requires InSteps(s)
  {
    map j | j in s.workers :: SessionOf(s, j)
  }

  lemma NeedsRankHigh(t: Tables, w: Worker)
    requires InBody(w.pc) && PcFits(w.op, w.pc) && RanksOk(w)
    ensures forall l | l in Needs(t, w) - w.locks :: LockRank(l) >= Ceiling(w)
  {
  }

  lemma SessionAscends(s: State, j: nat)
    requires Inv(s) && j in s.workers && RanksOk(s.workers[j])
    ensures Ascending(SessionOf(s, j), LockRank)
    ensures forall l | l in SessionOf(s, j).held :: LockRank(l) <= 3
  {
    var w := s.workers[j];
    assert InStep(w, s.ledger.runs[j]) && WorkerOk(s.tables, w);
    if AtStatement(w, s.ledger.runs[j]) {
      NeedsRankHigh(s.tables, w);
    }
  }

  /** In every reachable state, no set of unfinished loyalty transactions all wait for each other. */
  lemma NoDeadlock(acts: seq<Action>, among: set<nat>) returns (i: nat)
    requires CanRun(Init(), acts)
    requires among != {} && among <= Run(Init(), acts).workers.Keys
    ensures Inv(Run(Init(), acts)) && i in among
    ensures !BlockedWithin(Sessions(Run(Init(), acts)), i, among)
  {
    ReachableInv([]);
    RunKeepsRanks(Init(), acts);
    var s := Run(Init(), acts);
    forall j | j in among ensures Ascending(Sessions(s)[j], LockRank) {
      SessionAscends(s, j);
    }
    forall j, l | j in among && l in Sessions(s)[j].held ensures LockRank(l) <= 3 {
      SessionAscends(s, j);
    }
    i := SomeoneMoves(Sessions(s), LockRank, 3, among);
  }

  /** The next statement of a transaction. One whose statement throws fails instead. */
  ghost function NextAction(t: Tables, w: Worker, run: Ledger.Attempt<Key, Op, Reply>, j: nat): Action {
    match run.phase
    case Ready => Claim(j)
    case Conflicted => Read(j)
    case Working =>
      if w.pc.Finalizing? then Finalize(j)
      else if CanExecute(t, w) then Body(j)
      else Fail(j)
    case Stamping => Stamp(j)
    case _ => Commit(j)
  }

  /** A transaction that waits for no unfinished one waits for nobody: a finished one holds nothing. */
  lemma NobodyBlocks(s: State, i: nat, among: set<nat>)
    requires Inv(s) && i in among && i in s.workers
    requires among == set j | j in s.workers && !Ledger.Finished(s.ledger.runs[j].phase)
    requires !BlockedWithin(Sessions(s), i, among)
    ensures forall j | j in s.workers && j != i :: !Blocks(SessionOf(s, j), SessionOf(s, i))
  {
    forall j | j in s.workers && j != i ensures !Blocks(SessionOf(s, j), SessionOf(s, i)) {
      assert InStep(s.workers[j], s.ledger.runs[j]) && WorkerOk(s.tables, s.workers[j]);
      assert Sessions(s)[j] == SessionOf(s, j) && Sessions(s)[i] == SessionOf(s, i);
    }
  }

  lemma CanClaim(s: State, i: nat)
    requires Inv(s) && i in s.workers && s.ledger.runs[i].phase.Ready?
    requires forall j | j in s.workers && j != i :: !Blocks(SessionOf(s, j), SessionOf(s, i))
    ensures Enabled(s, Claim(i))
  {
    var key := s.ledger.runs[i].key;
    if key.Some? {
      forall j | j in s.workers && j != i ensures !(Ledger.Claimed(s.ledger.runs[j]) && s.ledger.runs[j].key == key) {
        assert KeyRow(key.value) in SessionOf(s, i).wanted;
      }
    }
  }

  lemma CanRunBody(s: State, i: nat)
    requires Inv(s) && i in s.workers && s.ledger.runs[i].phase.Working? && CanExecute(s.tables, s.workers[i])
    requires forall j | j in s.workers && j != i :: !Blocks(SessionOf(s, j), SessionOf(s, i))
    ensures Enabled(s, Body(i))
  {
    forall j | j in s.workers && j != i ensures s.workers[j].locks !! Needs(s.tables, s.workers[i]) {
      assert s.workers[j].locks <= SessionOf(s, j).held;
    }
  }

  /**
   As long as some loyalty transaction is unfinished, there is one that nobody blocks and that can take its next step,
   be it that its next statement throws.
   */
  lemma SomeoneCanStep(acts: seq<Action>, j: nat) returns (i: nat)
    requires CanRun(Init(), acts)
    requires j in Run(Init(), acts).ledger.runs
    requires !Ledger.Finished(Run(Init(), acts).ledger.runs[j].phase)
    ensures var s := Run(Init(), acts);
            && i in s.workers && i in s.ledger.runs && !Ledger.Finished(s.ledger.runs[i].phase)
            && InSteps(s) && (forall k | k in s.workers && k != i :: !Blocks(SessionOf(s, k), SessionOf(s, i)))
            && Enabled(s, NextAction(s.tables, s.workers[i], s.ledger.runs[i], i))
  {
    ReachableInv(acts);
    var s := Run(Init(), acts);
    var among := set k | k in s.workers && !Ledger.Finished(s.ledger.runs[k].phase);
    assert j in among;
    i := NoDeadlock(acts, among);
    NobodyBlocks(s, i, among);
    UnblockedCanStep(s, i, among);
  }

  lemma UnblockedCanStep(s: State, i: nat, among: set<nat>)
    requires Inv(s) && i in among && i in s.workers
    requires among == set j | j in s.workers && !Ledger.Finished(s.ledger.runs[j].phase)
    requires !BlockedWithin(Sessions(s), i, among)
    ensures Enabled(s, NextAction(s.tables, s.workers[i], s.ledger.runs[i], i))
  {
    var w, run := s.workers[i], s.ledger.runs[i];
    assert InStep(w, run) && WorkerOk(s.tables, w) && Ledger.RunOk(s.ledger, run);
    NobodyBlocks(s, i, among);
    if run.phase.Ready? {
      CanClaim(s, i);
    } else if run.phase.Working? && CanExecute(s.tables, w) {
      CanRunBody(s, i);
    }
  }
}
