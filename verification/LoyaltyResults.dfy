/** What loyalty points and referrals promise, over every interleaving of statements, retries and rollbacks. */
module LoyaltyResults {
  import opened Prelude
  import opened Loyalty
  import opened LoyaltySafety
  import Ledger

  lemma ReachableInv(acts: seq<Action>)
    requires CanRun(Init(), acts)
    ensures Inv(Run(Init(), acts))
  {
    forall r: nat ensures ReferralOk(Init().tables, r) {
    }
    RunKeepsInv(Init(), acts);
  }

  // ---------------------------------------------------------------- the journal

  /** Every balance is the sum of the user's journal, and the lifetime points are the sum of the awards in it. */
  lemma AccountsMatchJournal(acts: seq<Action>, user: nat)
    requires CanRun(Init(), acts) && user in Run(Init(), acts).tables.accounts
    ensures var t := Run(Init(), acts).tables;
            && t.accounts[user].balance == Total(Points(user), t.journal)
            && t.accounts[user].lifetime == Total(Lifetime(user), t.journal)
            && t.accounts[user] == Graded(t.accounts[user], t.accounts[user].lifetime)
  {
    ReachableInv(acts);
    var t := Run(Init(), acts).tables;
    assert AccountOk(t.journal, user, t.accounts[user]);
  }

  /** A graded account has the tier whose band its lifetime points fall into, and knows how far it is to the next. */
  lemma GradeIsBand(a: Account)
    requires a == Graded(a, a.lifetime) && a.lifetime >= 0
    ensures Threshold(a.tier) <= a.lifetime
    ensures forall t: Tier | Threshold(t) <= a.lifetime :: TierRank(t) <= TierRank(a.tier)
    ensures a.next == 0 <==> a.tier.Platinum?
    ensures a.next > 0 ==> a.lifetime < a.next && Threshold(a.tier) + a.progress == a.lifetime
    ensures a.next > 0 ==> exists t: Tier :: TierRank(t) == TierRank(a.tier) + 1 && Threshold(t) == a.next
  {
    if a.tier.Bronze? {
      assert TierRank(Silver) == 1 && Threshold(Silver) == a.next;
    } else if a.tier.Silver? {
      assert TierRank(Gold) == 2 && Threshold(Gold) == a.next;
    } else if a.tier.Gold? {
      assert TierRank(Platinum) == 3 && Threshold(Platinum) == a.next;
    }
  }

  /** The points a user has spent on rewards are exactly the redeem entries of the journal. */
  lemma RedemptionsMatchJournal(acts: seq<Action>, user: nat)
    requires CanRun(Init(), acts)
    ensures var t := Run(Init(), acts).tables;
            Total(Spending(user), t.journal) == -Spent(t.redemptions, user)
  {
    ReachableInv(acts);
    assert SpendingOk(Run(Init(), acts).tables, user);
  }

  // ---------------------------------------------------------------- referrals

  /** A referral pays its referrer bonus exactly once, exactly when it is marked rewarded, and welcomes exactly once. */
  lemma BonusPaidWhenRewarded(acts: seq<Action>, r: nat)
    requires CanRun(Init(), acts)
    ensures var t := Run(Init(), acts).tables;
            && Total(Times(Bonus(r)), t.journal) == (if r in t.referrals && t.referrals[r].rewarded then 1 else 0)
            && Total(Times(Welcome(r)), t.journal) == (if r in t.referrals then 1 else 0)
  {
    ReachableInv(acts);
    assert ReferralOk(Run(Init(), acts).tables, r);
  }

  /** And it pays the right user the right number of points. */
  lemma BonusGoesToReferrer(acts: seq<Action>, k: nat)
    requires CanRun(Init(), acts) && k < |Run(Init(), acts).tables.journal|
    requires Run(Init(), acts).tables.journal[k].kind.Awarded?
    ensures var t := Run(Init(), acts).tables;
            var e := t.journal[k];
            && (e.kind.cause.Bonus? ==>
                  e.kind.cause.referral in t.referrals &&
                  e.user == t.referrals[e.kind.cause.referral].referrer && e.points == t.referrals[e.kind.cause.referral].bonus)
            && (e.kind.cause.Welcome? ==>
                  e.kind.cause.referral in t.referrals &&
                  e.user == t.referrals[e.kind.cause.referral].referred && e.points == WELCOME_BONUS)
  {
    ReachableInv(acts);
    var t := Run(Init(), acts).tables;
    assert EntryOk(t, t.journal[k]);
  }

  // ---------------------------------------------------------------- whose code, and at what cost

  /** What other parts of the platform have settled: who owns a code, and what an active reward asks for. */
  datatype Term = Owns(code: string, user: nat) | Offers(reward: nat, cost: int, minRank: int)

  function Terms(t: Tables): set<Term> {
    (set c | c in t.codes :: Owns(c, t.codes[c])) +
    (set r | r in t.rewards && t.rewards[r].active :: Offers(r, t.rewards[r].cost, t.rewards[r].minRank))
  }

  /** The terms of all the states of a run. */
  ghost function Ever(s: State, acts: seq<Action>): set<Term>
    requires CanRun(s, acts)
    decreases |acts|
  {
    Terms(s.tables) + if acts == [] then {} else Ever(Do(s, acts[0]), acts[1..])
  }

  ghost predicate CostKnown(known: set<Term>, reward: nat, cost: int) {
    exists minRank :: Offers(reward, cost, minRank) in known
  }

  ghost predicate WorkerTermsKnown(known: set<Term>, w: Worker) {
    && (w.op.Apply? && (w.pc.FindReferral? || w.pc.InsertReferral?) ==> Owns(w.op.code, w.pc.referrer) in known)
    && (forall r | r in w.referrals :: Owns(w.referrals[r].code, w.referrals[r].referrer) in known)
    && (w.op.Redeem? && w.pc.LockAccount? ==> Offers(w.op.reward, w.pc.cost, w.pc.minRank) in known)
    && (w.op.Redeem? && (w.pc.Debit? || w.pc.RedeemJournal? || w.pc.InsertRedemption?) ==>
          CostKnown(known, w.op.reward, w.pc.cost))
    && (w.redemption.Some? ==> CostKnown(known, w.redemption.value.reward, w.redemption.value.spent))
  }

  ghost predicate TermsKnown(known: set<Term>, s: State) {
    && (forall r | r in s.tables.referrals :: Owns(s.tables.referrals[r].code, s.tables.referrals[r].referrer) in known)
    && (forall k | 0 <= k < |s.tables.redemptions| ::
          CostKnown(known, s.tables.redemptions[k].reward, s.tables.redemptions[k].spent))
    && (forall j {:trigger WorkerTermsKnown(known, s.workers[j])} | j in s.workers :: WorkerTermsKnown(known, s.workers[j]))
  }

  lemma SpendTermsKnown(known: set<Term>, t: Tables, w: Worker)
    requires CanExecute(t, w) && (w.op.Redeem? || w.op.Expire?) && WorkerTermsKnown(known, w) && Terms(t) <= known
    ensures WorkerTermsKnown(known, Execute(t, w))
  {
    hide View, Needs;
    if w.pc.ReadReward? {
      assert Offers(w.op.reward, t.rewards[w.op.reward].cost, t.rewards[w.op.reward].minRank) in Terms(t);
    }
  }

  lemma ReferTermsKnown(known: set<Term>, t: Tables, w: Worker)
    requires CanExecute(t, w) && !InAward(w.pc) && (w.op.Apply? || w.op.Complete?)
    requires WorkerTermsKnown(known, w) && Terms(t) <= known
    requires forall r | r in t.referrals :: Owns(t.referrals[r].code, t.referrals[r].referrer) in known
    ensures WorkerTermsKnown(known, Execute(t, w))
  {
    hide Needs;
    if w.pc.FindReferrer? {
      assert Owns(w.op.code, t.codes[w.op.code]) in Terms(t);
    }
  }

  lemma ExecuteTermsKnown(known: set<Term>, t: Tables, w: Worker)
    requires CanExecute(t, w) && WorkerTermsKnown(known, w) && Terms(t) <= known
    requires forall r | r in t.referrals :: Owns(t.referrals[r].code, t.referrals[r].referrer) in known
    ensures WorkerTermsKnown(known, Execute(t, w))
  {
    hide View, Needs, Graded, Throws, SpendStep, ReferStep, Terms;
    if !InAward(w.pc) {
      if w.op.Redeem? || w.op.Expire? {
        SpendTermsKnown(known, t, w);
      } else {
        ReferTermsKnown(known, t, w);
      }
    }
  }

  lemma BodyDoes(s: State, id: nat)
    requires Enabled(s, Body(id))
    ensures CanExecute(s.tables, s.workers[id])
    ensures Do(s, Body(id)).tables == After(s.tables, s.workers[id])
    ensures Do(s, Body(id)).workers == s.workers[id := Execute(s.tables, s.workers[id])]
  {
    hide Execute, Needs, Throws;
  }

  lemma DoKeepsTermsKnown(known: set<Term>, s: State, a: Action)
    requires Enabled(s, a) && TermsKnown(known, s) && Terms(s.tables) <= known
    ensures TermsKnown(known, Do(s, a))
  {
    if a.Body? {
      hide Do, Enabled, Execute;
      BodyDoes(s, a.id);
      ExecuteTermsKnown(known, s.tables, s.workers[a.id]);
    } else {
      hide Execute, Needs, CanExecute, Terms;
      var u := Do(s, a);
      assert a.Commit? ==> WorkerTermsKnown(known, s.workers[a.id]);
      forall j | j in u.workers ensures WorkerTermsKnown(known, u.workers[j]) {
        assert j in s.workers ==> WorkerTermsKnown(known, s.workers[j]);
      }
      forall k | 0 <= k < |u.tables.redemptions|
        ensures CostKnown(known, u.tables.redemptions[k].reward, u.tables.redemptions[k].spent)
      {
        assert k < |s.tables.redemptions| ==> u.tables.redemptions[k] == s.tables.redemptions[k];
      }
    }
  }

  lemma {:induction false} RunKeepsTermsKnown(known: set<Term>, s: State, acts: seq<Action>)
    requires CanRun(s, acts) && TermsKnown(known, s) && Ever(s, acts) <= known
    ensures TermsKnown(known, Run(s, acts))
    decreases |acts|
  {
    hide TermsKnown, Terms;
    if acts != [] {
      DoKeepsTermsKnown(known, s, acts[0]);
      RunKeepsTermsKnown(known, Do(s, acts[0]), acts[1..]);
    }
  }

  lemma {:induction false} LastTerms(s: State, acts: seq<Action>)
    requires CanRun(s, acts)
    ensures Terms(Run(s, acts).tables) <= Ever(s, acts)
    decreases |acts|
  {
    hide Terms;
    if acts != [] {
      LastTerms(Do(s, acts[0]), acts[1..]);
    }
  }

  lemma CodesStay(s: State, a: Action, code: string)
    requires Enabled(s, a) && code in s.tables.codes
    ensures code in Do(s, a).tables.codes
  {
    hide Execute, Needs, CanExecute, FreeOf;
  }

  lemma {:induction false} EverOwnedStaysOwned(s: State, acts: seq<Action>, code: string, user: nat)
    requires CanRun(s, acts) && (Owns(code, user) in Ever(s, acts) || code in s.tables.codes)
    ensures code in Run(s, acts).tables.codes
    decreases |acts|
  {
    if acts != [] {
      if code in s.tables.codes {
        CodesStay(s, acts[0], code);
      }
      EverOwnedStaysOwned(Do(s, acts[0]), acts[1..], code, user);
    }
  }

  /**
   A referral names as referrer a user who owned its code in some state of the run, and never the user who was referred.
   If the code has only ever had one owner, it is the owner.
   */
  lemma ReferrerOwnsCode(acts: seq<Action>, r: nat)
    requires CanRun(Init(), acts) && r in Run(Init(), acts).tables.referrals
    ensures var t := Run(Init(), acts).tables;
            var x := t.referrals[r];
            && x.referrer != x.referred && Owns(x.code, x.referrer) in Ever(Init(), acts)
            && ((forall u | Owns(x.code, u) in Ever(Init(), acts) :: u == x.referrer) ==>
                  x.code in t.codes && t.codes[x.code] == x.referrer)
  {
    ReachableInv(acts);
    RunKeepsTermsKnown(Ever(Init(), acts), Init(), acts);
    LastTerms(Init(), acts);
    var t := Run(Init(), acts).tables;
    assert ReferralOk(t, r);
    EverOwnedStaysOwned(Init(), acts, t.referrals[r].code, t.referrals[r].referrer);
    assert Owns(t.referrals[r].code, t.codes[t.referrals[r].code]) in Terms(t);
  }

  /** A referrer bonus goes to a user who owned the code that was applied, a welcome bonus to one who did not refer itself. */
  lemma BonusGoesToOwner(acts: seq<Action>, k: nat)
    requires CanRun(Init(), acts) && k < |Run(Init(), acts).tables.journal|
    requires Run(Init(), acts).tables.journal[k].kind.Awarded? && Run(Init(), acts).tables.journal[k].kind.cause.Bonus?
    ensures var t := Run(Init(), acts).tables;
            var e := t.journal[k];
            var r := e.kind.cause.referral;
            && r in t.referrals && e.user != t.referrals[r].referred
            && Owns(t.referrals[r].code, e.user) in Ever(Init(), acts)
  {
    BonusGoesToReferrer(acts, k);
    ReferrerOwnsCode(acts, Run(Init(), acts).tables.journal[k].kind.cause.referral);
  }

  /** A redemption has spent what its reward cost in some state of the run in which it was active. */
  lemma RedemptionPaysTheCost(acts: seq<Action>, k: nat) returns (minRank: int)
    requires CanRun(Init(), acts) && k < |Run(Init(), acts).tables.redemptions|
    ensures var x := Run(Init(), acts).tables.redemptions[k];
            Offers(x.reward, x.spent, minRank) in Ever(Init(), acts)
  {
    RunKeepsTermsKnown(Ever(Init(), acts), Init(), acts);
    var x := Run(Init(), acts).tables.redemptions[k];
    minRank :| Offers(x.reward, x.spent, minRank) in Ever(Init(), acts);
  }

  // ---------------------------------------------------------------- no balance below zero

  predicate AwardsNonNegative(acts: seq<Action>) {
    forall a | a in acts && a.Begin? && a.op.Award? :: a.op.points >= 0
  }

  ghost predicate WorkerSolvent(w: Worker) {
    && (w.op.Award? ==> w.op.points >= 0)
    && (forall u | u in w.rows :: w.rows[u].balance >= 0)
    && (forall r | r in w.referrals :: w.referrals[r].bonus >= 0)
  }

  ghost predicate Solvent(s: State) {
    && (forall u | u in s.tables.accounts :: s.tables.accounts[u].balance >= 0)
    && (forall r | r in s.tables.referrals :: s.tables.referrals[r].bonus >= 0)
    && (forall j {:trigger WorkerSolvent(s.workers[j])} | j in s.workers :: WorkerSolvent(s.workers[j]))
  }

  lemma ExecuteSolvent(t: Tables, w: Worker)
    requires WorkerOk(t, w) && CanExecute(t, w) && WorkerSolvent(w)
    requires forall u | u in t.accounts :: t.accounts[u].balance >= 0
    requires forall r | r in t.referrals :: t.referrals[r].bonus >= 0
    requires w.op.Expire? ==> w.op.points > 0
    ensures WorkerSolvent(Execute(t, w))
  {
    if InAward(w.pc) {
      AwardSolvent(t, w);
    } else if w.op.Redeem? || w.op.Expire? {
      hide AwardStep, ReferStep, OpOk, LocksHeld;
    } else {
      hide AwardStep, SpendStep, RowOk, LocksHeld;
    }
  }

  lemma AwardSolvent(t: Tables, w: Worker)
    requires WorkerOk(t, w) && CanExecute(t, w) && WorkerSolvent(w) && InAward(w.pc)
    requires forall u | u in t.accounts :: t.accounts[u].balance >= 0
    requires forall r | r in t.referrals :: t.referrals[r].bonus >= 0
    ensures WorkerSolvent(Execute(t, w))
  {
    hide RowOk, LocksHeld, SpendStep, ReferStep;
    assert w.pc.grant.points >= 0;
  }

  lemma DoKeepsSolvent(s: State, a: Action)
    requires Inv(s) && Solvent(s) && Enabled(s, a)
    requires forall j | j in s.workers && s.workers[j].op.Expire? :: s.workers[j].op.points > 0
    requires a.Begin? && a.op.Award? ==> a.op.points >= 0
    ensures Solvent(Do(s, a))
  {
    if a.Body? {
      hide Do, Enabled, Execute, CanExecute;
      var w := s.workers[a.id];
      BodyDoes(s, a.id);
      assert WorkerSolvent(w) && WorkerOk(s.tables, w);
      ExecuteSolvent(s.tables, w);
    } else {
      OthersStaySolvent(s, a);
    }
  }

  lemma OthersStaySolvent(s: State, a: Action)
    requires Inv(s) && Solvent(s) && Enabled(s, a) && !a.Body?
    requires a.Begin? && a.op.Award? ==> a.op.points >= 0
    ensures Solvent(Do(s, a))
  {
    hide Inv, Execute, Needs, CanExecute, Ledger.Enabled;
    var u := Do(s, a);
    if a.Commit? {
      assert WorkerSolvent(s.workers[a.id]);
    }
    forall j | j in u.workers ensures WorkerSolvent(u.workers[j]) {
      assert j in s.workers ==> WorkerSolvent(s.workers[j]);
    }
  }

  ghost predicate ExpiriesPositive(s: State) {
    forall j | j in s.workers && s.workers[j].op.Expire? :: s.workers[j].op.points > 0
  }

  lemma ExecuteKeepsOp(t: Tables, w: Worker)
    requires CanExecute(t, w)
    ensures Execute(t, w).op == w.op
  {
  }

  lemma DoKeepsExpiries(s: State, a: Action)
    requires ExpiriesPositive(s) && Enabled(s, a)
    ensures ExpiriesPositive(Do(s, a))
  {
    if a.Body? {
      ExecuteKeepsOp(s.tables, s.workers[a.id]);
    }
  }

  lemma {:induction false} RunKeepsSolvent(s: State, acts: seq<Action>)
    requires Inv(s) && Solvent(s) && ExpiriesPositive(s) && CanRun(s, acts) && AwardsNonNegative(acts)
    ensures Solvent(Run(s, acts))
    decreases |acts|
  {
    if acts != [] {
      DoKeepsInv(s, acts[0]);
      DoKeepsSolvent(s, acts[0]);
      DoKeepsExpiries(s, acts[0]);
      RunKeepsSolvent(Do(s, acts[0]), acts[1..]);
    }
  }

  /** With non-negative awards no balance is ever negative, whatever the rewards cost. */
  lemma NeverNegative(acts: seq<Action>, user: nat)
    requires CanRun(Init(), acts) && AwardsNonNegative(acts) && user in Run(Init(), acts).tables.accounts
    ensures Run(Init(), acts).tables.accounts[user].balance >= 0
  {
    ReachableInv([]);
    RunKeepsSolvent(Init(), acts);
  }

  // ---------------------------------------------------------------- the ledger underneath

  ghost function Trace(s: State, acts: seq<Action>): seq<Ledger.Action<Key, Op, Reply>>
    requires CanRun(s, acts)
    decreases |acts|
  {
    if acts == [] then []
    else
      var rest := Trace(Do(s, acts[0]), acts[1..]);
      if OnLedger(s, acts[0]).Some? then [OnLedger(s, acts[0]).value] + rest else rest
  }

  lemma {:induction false} RunsOnLedger(s: State, acts: seq<Action>)
    requires CanRun(s, acts)
    ensures Ledger.CanRun(s.ledger, Trace(s, acts)) && Ledger.Run(s.ledger, Trace(s, acts)) == Run(s, acts).ledger
    decreases |acts|
  {
    if acts != [] {
      RunsOnLedger(Do(s, acts[0]), acts[1..]);
      var l := OnLedger(s, acts[0]);
      if l.Some? {
        assert Trace(s, acts)[1..] == Trace(Do(s, acts[0]), acts[1..]);
        Ledger.Steps(s.ledger, Trace(s, acts));
      }
    }
  }

  /** Two keyed redemptions or referral calls under one key never both commit an effect. */
  lemma LoyaltyEffectOnce(acts: seq<Action>, i: nat, j: nat)
    requires CanRun(Init(), acts)
    requires var runs := Run(Init(), acts).ledger.runs;
             i in runs && j in runs && runs[i].phase.Committed? && runs[j].phase.Committed? &&
             runs[i].key.Some? && runs[i].key == runs[j].key
    ensures i == j
  {
    RunsOnLedger(Init(), acts);
    Ledger.EffectOnce(Trace(Init(), acts), i, j);
  }

  // ---------------------------------------------------------------- retries

  /** The statements of a retry. */
  function Retry(i: nat, op: Op, name: string): seq<Action> { [Begin(i, op, Some(name)), Claim(i), Read(i), Commit(i)] }

  /** The key under which a call is entered in the ledger. */
  function KeyOf(op: Op, name: Option<string>): Option<Key> {
    if Keyed(op) && name.Some? then Some(Key(ScopeOf(op), name.value)) else None
  }

  lemma Steps(s: State, a: Action, rest: seq<Action>)
    requires Enabled(s, a) && CanRun(Do(s, a), rest)
    ensures CanRun(s, [a] + rest) && Run(s, [a] + rest) == Run(Do(s, a), rest)
  {
    assert ([a] + rest)[1..] == rest;
  }

  lemma BeginDoes(s: State, i: nat, op: Op, name: Option<string>)
    requires i !in s.workers && i !in s.ledger.runs && (op.Expire? ==> op.points > 0)
    ensures Enabled(s, Begin(i, op, name)) && Ledger.Enabled(s.ledger, Ledger.Begin(i, KeyOf(op, name), op))
    ensures Do(s, Begin(i, op, name)) ==
            s.(ledger := Ledger.Do(s.ledger, Ledger.Begin(i, KeyOf(op, name), op)),
               workers := s.workers[i := Worker(op, Claiming, {}, map[], None, None, map[])])
  {
  }

  lemma ClaimDoes(s: State, a: Action)
    requires (a.Claim? || a.Read?) && a.id in s.workers && Ledger.Enabled(s.ledger, OnLedger(s, a).value)
    ensures Enabled(s, a) && var l := Ledger.Do(s.ledger, OnLedger(s, a).value);
            && a.id in l.runs
            && Do(s, a) == s.(ledger := l, workers := s.workers[a.id := AfterClaim(s.workers[a.id], l.runs[a.id].phase)])
  {
  }

  lemma RetryRuns(s: State, i: nat, op: Op, key: Key)
    requires Ledger.Inv(s.ledger) && i !in s.workers && i !in s.ledger.runs && Keyed(op) && key.scope == ScopeOf(op)
    requires key in s.ledger.rows && s.ledger.rows[key].status.Completed? && s.ledger.rows[key].hash == op
    ensures CanRun(s, Retry(i, op, key.name))
    ensures var t := Run(s, Retry(i, op, key.name));
            i in t.ledger.runs && t.ledger.runs[i].phase == Ledger.Returned(s.ledger.rows[key].response) && t.tables == s.tables
  {
    Ledger.RetryReplays(s.ledger, i, key);
    var b: Action := Begin(i, op, Some(key.name));
    BeginDoes(s, i, op, Some(key.name));
    hide Do, Enabled, Ledger.Do, Ledger.Enabled, Ledger.Replays, Ledger.Inv;
    var s1 := Do(s, b);
    RetryGoesOn(s1, i, s.ledger.rows[key].response);
    Steps(s, b, [Claim(i)] + ([Read(i)] + ([Commit(i)] + [])));
    assert Retry(i, op, key.name) == [b] + ([Claim(i)] + ([Read(i)] + ([Commit(i)] + [])));
  }

  lemma RetryGoesOn(s: State, i: nat, stored: Ledger.Stored<Reply>)
    requires i in s.workers && Nothing(s.workers[i])
    requires Ledger.Replays(s.ledger, i, stored)
    ensures var rest := [Claim(i)] + ([Read(i)] + ([Commit(i)] + []));
            && CanRun(s, rest) && i in Run(s, rest).ledger.runs
            && Run(s, rest).ledger.runs[i].phase == Ledger.Returned(stored) && Run(s, rest).tables == s.tables
  {
    hide Ledger.Do, Ledger.Enabled;
    ClaimDoes(s, Claim(i));
    var s2 := Do(s, Claim(i));
    ClaimDoes(s2, Read(i));
    var s3 := Do(s2, Read(i));
    NothingWritten(s.tables, s3.workers[i]);
    Steps(s3, Commit(i), []);
    Steps(s2, Read(i), [Commit(i)] + []);
    Steps(s, Claim(i), [Read(i)] + ([Commit(i)] + []));
  }

  /** In every reachable state a retry of a completed call gets the reply of the call that committed, and writes nothing. */
  lemma RetryIsReplayed(acts: seq<Action>, i: nat, key: Key) returns (c: nat, reply: Reply)
    requires CanRun(Init(), acts)
    requires var s := Run(Init(), acts);
             i !in s.workers && key in s.ledger.rows && s.ledger.rows[key].status.Completed?
    ensures var s := Run(Init(), acts);
            var op := s.ledger.rows[key].hash;
            && Ledger.CommittedAs(s.ledger, c, key, op, reply) && CanRun(s, Retry(i, op, key.name))
            && var t := Run(s, Retry(i, op, key.name));
               i in t.ledger.runs && t.ledger.runs[i].phase == Ledger.Returned(Ledger.Response(reply)) && t.tables == s.tables
  {
    ReachableInv(acts);
    var s := Run(Init(), acts);
    c, reply := Ledger.CompletedIsReplayed(s.ledger, i, key);
    assert InStep(s.workers[c], s.ledger.runs[c]);
    RetryRuns(s, i, s.ledger.rows[key].hash, key);
  }
}
