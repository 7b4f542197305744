/** What a loyalty or referral call achieves when no other transaction is in progress, and exactly when it throws. */
module LoyaltyCalls {
  import opened Prelude
  import opened Loyalty
  import opened LoyaltySafety
  import opened LoyaltyResults
  import Ledger

  // ---------------------------------------------------------------- a call that nobody disturbs

  /** No transaction is in progress. */
  ghost predicate AtRest(s: State) { Inv(s) && forall j | j in s.ledger.runs :: Ledger.Finished(s.ledger.runs[j].phase) }

  function Fresh(op: Op, pc: Pc): Worker { Worker(op, pc, {}, map[], None, None, map[]) }

  /** Call `i` is in progress, and has come this far. */
  function During(s: State, i: nat, key: Option<Key>, phase: Ledger.Phase<Reply>, t: Tables, w: Worker): State {
    State(t, s.ledger.(runs := s.ledger.runs[i := Ledger.Attempt(key, w.op, phase)]), s.workers[i := w])
  }

  function Left(pc: Pc): nat {
    match pc
    case FindReferrer | LockReferral => 12
    case FindReferral(_) => 11
    case InsertReferral(_) => 10
    case MarkUser(_) => 9
    case AwardUpdate(_) => 8
    case AwardEnsure(_) => 7
    case AwardAgain(_) => 6
    case AwardTier(_, _) => 5
    case AwardJournal(_) => 4
    case MarkRewarded => 3
    case ReadReferral => 2
    case ReadReward => 5
    case LockAccount(_, _) => 4
    case Debit(_) => 3
    case RedeemJournal(_) | ExpireDebit => 2
    case InsertRedemption(_) | ExpireJournal => 1
    case _ => 0
  }

  /** The statement leads on within the call, to its reply in the end. */
  ghost predicate GoesOn(w: Worker, v: Worker) {
    v.op == w.op && Left(v.pc) < Left(w.pc) && PcFits(v.op, v.pc) && (InBody(v.pc) || v.pc.Finalizing?)
  }

  lemma SpendGoesOn(t: Tables, w: Worker)
    requires CanExecute(t, w) && (w.op.Redeem? || w.op.Expire?)
    ensures GoesOn(w, Execute(t, w))
  {
    hide Throws, View, Needs;
  }

  lemma ExecuteGoesOn(t: Tables, w: Worker)
    requires CanExecute(t, w)
    ensures GoesOn(w, Execute(t, w))
  {
    hide Throws, View, Graded, Needs, SpendStep;
    if w.op.Redeem? || w.op.Expire? {
      SpendGoesOn(t, w);
    }
  }

  /** The tables and the transaction after its statements, up to its reply or to the statement that throws. */
  ghost function Work(t: Tables, w: Worker): (r: (Tables, Worker))
    requires PcFits(w.op, w.pc) && (InBody(w.pc) || w.pc.Finalizing?)
    ensures r.1.op == w.op && PcFits(w.op, r.1.pc) && (r.1.pc.Finalizing? || (InBody(r.1.pc) && Throws(r.0, r.1)))
    decreases Left(w.pc)
  {
    if !CanExecute(t, w) then (t, w)
    else
      ExecuteGoesOn(t, w);
      Work(After(t, w), Execute(t, w))
  }

  ghost predicate NothingHeld(s: State) { forall j | j in s.workers :: s.workers[j].locks == {} }

  lemma RestHoldsNothing(s: State, key: Option<Key>)
    requires AtRest(s) && (key.Some? ==> key.value !in s.ledger.rows)
    ensures NothingHeld(s) && Ledger.Unclaimed(s.ledger, key)
  {
    hide TablesOk, LocksApart;
    forall j | j in s.workers ensures s.workers[j].locks == {} {
      assert InStep(s.workers[j], s.ledger.runs[j]) && WorkerOk(s.tables, s.workers[j]);
    }
  }

  lemma BodyRuns(s: State, i: nat, key: Option<Key>, t: Tables, w: Worker)
    requires NothingHeld(s) && CanExecute(t, w)
    ensures var d := During(s, i, key, Ledger.Working, t, w);
            Enabled(d, Body(i)) && Do(d, Body(i)) == During(s, i, key, Ledger.Working, After(t, w), Execute(t, w))
  {
    hide Execute, Needs, Throws;
    var d := During(s, i, key, Ledger.Working, t, w);
    forall j | j in d.workers && j != i ensures d.workers[j].locks !! Needs(t, w) {
    }
    BodyDoes(d, i);
    ExecuteGoesOn(t, w);
  }

  lemma {:induction false} WorkRuns(s: State, i: nat, key: Option<Key>, t: Tables, w: Worker, rest: seq<Action>)
    returns (acts: seq<Action>)
    requires NothingHeld(s) && PcFits(w.op, w.pc) && (InBody(w.pc) || w.pc.Finalizing?)
    requires var (u, v) := Work(t, w); CanRun(During(s, i, key, Ledger.Working, u, v), rest)
    ensures var (u, v) := Work(t, w);
            && CanRun(During(s, i, key, Ledger.Working, t, w), acts)
            && Run(During(s, i, key, Ledger.Working, t, w), acts) == Run(During(s, i, key, Ledger.Working, u, v), rest)
    decreases Left(w.pc)
  {
    hide Do, Enabled, Execute, CanExecute, Throws;
    if !CanExecute(t, w) {
      acts := rest;
    } else {
      ExecuteGoesOn(t, w);
      BodyRuns(s, i, key, t, w);
      acts := WorkRuns(s, i, key, After(t, w), Execute(t, w), rest);
      Steps(During(s, i, key, Ledger.Working, t, w), Body(i), acts);
      acts := [Body(i)] + acts;
    }
  }

  /** Where the statements of a call lead. */
  ghost function Reached(t: Tables, op: Op): (r: (Tables, Worker))
    ensures r.1.op == op && PcFits(op, r.1.pc) && (r.1.pc.Finalizing? || (InBody(r.1.pc) && Throws(r.0, r.1)))
  {
    Work(t, Fresh(op, FirstPc(op)))
  }

  ghost predicate Succeeds(t: Tables, op: Op) { Reached(t, op).1.pc.Finalizing? }

  /** The tables after a call that runs undisturbed. */
  ghost function Result(t: Tables, op: Op): Tables {
    var (u, v) := Reached(t, op);
    if v.pc.Finalizing? then Committed(u, v.(pc := Committing)) else u
  }

  ghost function Answer(t: Tables, op: Op): Reply
    requires Succeeds(t, op)
  {
    Reached(t, op).1.pc.reply
  }

  lemma EndRuns(s: State, i: nat, key: Option<Key>, t: Tables, w: Worker)
    requires w.pc.Finalizing?
    ensures var d := During(s, i, key, Ledger.Working, t, w);
            var acts := [Finalize(i)] + ([Commit(i)] + []);
            && CanRun(d, acts) && i in Run(d, acts).ledger.runs
            && Run(d, acts).ledger.runs[i].phase == Ledger.Committed(w.pc.reply)
            && Run(d, acts).tables == Committed(t, w.(pc := Committing))
  {
    hide Execute, Needs, Committed, Throws;
    var d := During(s, i, key, Ledger.Working, t, w);
    var e := During(s, i, key, Ledger.Finalized(w.pc.reply), t, w.(pc := Committing));
    assert Do(d, Finalize(i)).ledger.runs == e.ledger.runs && Do(d, Finalize(i)).workers == e.workers;
    assert Do(d, Finalize(i)) == e;
    Steps(e, Commit(i), []);
    Steps(d, Finalize(i), [Commit(i)] + []);
  }

  lemma FailRuns(s: State, i: nat, key: Option<Key>, t: Tables, w: Worker)
    ensures var d := During(s, i, key, Ledger.Working, t, w);
            var acts := [Fail(i)] + [];
            && CanRun(d, acts) && i in Run(d, acts).ledger.runs && Run(d, acts).tables == t
            && !Run(d, acts).ledger.runs[i].phase.Committed?
  {
    hide Execute, Needs, Throws;
    Steps(During(s, i, key, Ledger.Working, t, w), Fail(i), []);
  }

  lemma StartRuns(s: State, i: nat, op: Op, name: Option<string>, rest: seq<Action>)
    requires i !in s.workers && i !in s.ledger.runs && (op.Expire? ==> op.points > 0)
    requires Ledger.Unclaimed(s.ledger, KeyOf(op, name))
    requires CanRun(During(s, i, KeyOf(op, name), Ledger.Working, s.tables, Fresh(op, FirstPc(op))), rest)
    ensures var acts := [Begin(i, op, name)] + ([Claim(i)] + rest);
            && CanRun(s, acts)
            && Run(s, acts) == Run(During(s, i, KeyOf(op, name), Ledger.Working, s.tables, Fresh(op, FirstPc(op))), rest)
  {
    hide Execute, Needs, Throws;
    var key := KeyOf(op, name);
    BeginDoes(s, i, op, name);
    var d := During(s, i, key, Ledger.Ready, s.tables, Fresh(op, Claiming));
    assert Do(s, Begin(i, op, name)) == d;
    ClaimDoes(d, Claim(i));
    var e := During(s, i, key, Ledger.Working, s.tables, Fresh(op, FirstPc(op)));
    assert Do(d, Claim(i)).ledger.runs == e.ledger.runs && Do(d, Claim(i)).workers == e.workers;
    Steps(d, Claim(i), rest);
    Steps(s, Begin(i, op, name), [Claim(i)] + rest);
  }

  /**
   Such a call commits exactly if its statements, one after the other, lead to a reply; that is its reply, and their
   writes are its result.
   */
  lemma CallRuns(s: State, i: nat, op: Op, name: Option<string>) returns (acts: seq<Action>)
    requires AtRest(s) && i !in s.workers && (op.Expire? ==> op.points > 0)
    requires KeyOf(op, name).Some? ==> KeyOf(op, name).value !in s.ledger.rows
    ensures CanRun(s, acts) && i in Run(s, acts).ledger.runs
    ensures var t := Run(s, acts);
            && (t.ledger.runs[i].phase.Committed? <==> Succeeds(s.tables, op))
            && (Succeeds(s.tables, op) ==> t.ledger.runs[i].phase.response == Answer(s.tables, op))
            && t.tables == Result(s.tables, op)
  {
    hide Do, Enabled, Execute, Committed, Throws;
    var key := KeyOf(op, name);
    RestHoldsNothing(s, key);
    var (u, v) := Reached(s.tables, op);
    var last := if v.pc.Finalizing? then [Finalize(i)] + ([Commit(i)] + []) else [Fail(i)] + [];
    if v.pc.Finalizing? {
      EndRuns(s, i, key, u, v);
    } else {
      FailRuns(s, i, key, u, v);
    }
    var rest := WorkRuns(s, i, key, s.tables, Fresh(op, FirstPc(op)), last);
    StartRuns(s, i, op, name, rest);
    acts := [Begin(i, op, name)] + ([Claim(i)] + rest);
  }

  lemma WorkStep(t: Tables, w: Worker)
    requires CanExecute(t, w)
    ensures PcFits(w.op, Execute(t, w).pc) && Execute(t, w).op == w.op
    ensures InBody(Execute(t, w).pc) || Execute(t, w).pc.Finalizing?
    ensures Work(t, w) == Work(After(t, w), Execute(t, w))
  {
    hide Execute, Throws;
    ExecuteGoesOn(t, w);
  }

  // ---------------------------------------------------------------- points

  /** The user, and nobody else, has so many more points, and the journal one entry that says why. */
  ghost predicate Credits(t: Tables, u: Tables, user: nat, points: int, cause: Cause) {
    && u.accounts.Keys == t.accounts.Keys + {user}
    && (forall v | v in t.accounts && v != user :: u.accounts[v] == t.accounts[v])
    && u.accounts[user].balance == (if user in t.accounts then t.accounts[user].balance else 0) + points
    && u.accounts[user].lifetime == (if user in t.accounts then t.accounts[user].lifetime else 0) + points
    && u.journal == t.journal + [Entry(user, Awarded(cause), points)] && u.redemptions == t.redemptions
  }

  /** The user, and nobody else, has so many points less, and is in the tier it was in. */
  ghost predicate Debits(t: Tables, u: Tables, user: nat, points: int, kind: Kind) {
    && user in t.accounts && t.accounts[user].balance >= points
    && u.accounts == t.accounts[user := t.accounts[user].(balance := t.accounts[user].balance - points)]
    && u.journal == t.journal + [Entry(user, kind, -points)]
    && u.referrals == t.referrals && u.nextReferral == t.nextReferral
  }

  /** An award of the grant has been made to the account, and entered. */
  ghost predicate Granted(t: Tables, w: Worker, g: Grant, v: Worker) {
    && v == w.(pc := AfterAward(w.op, g), rows := v.rows, locks := v.locks,
               entry := Some(Entry(g.user, Awarded(g.cause), g.points)))
    && v.rows.Keys == {g.user}
    && v.rows[g.user].balance == (if g.user in t.accounts then t.accounts[g.user].balance else 0) + g.points
    && v.rows[g.user].lifetime == (if g.user in t.accounts then t.accounts[g.user].lifetime else 0) + g.points
  }

  /** The statements of an award, wherever it is made. */
  lemma AwardWork(t: Tables, w: Worker) returns (v: Worker)
    requires w.pc.AwardUpdate? && PcFits(w.op, w.pc) && w.rows == map[]
    ensures Granted(t, w, w.pc.grant, v) && PcFits(v.op, v.pc) && (InBody(v.pc) || v.pc.Finalizing?)
    ensures Work(t, w) == Work(t, v)
  {
    hide Work;
    WorkStep(t, w);
    v := Execute(t, w);
    if v.pc.AwardEnsure? {
      v := EnsureWork(t, w, v);
    }
    v := TierWork(t, w, v);
  }

  /** The account has been credited, and is to be graded. */
  ghost predicate Raised(t: Tables, w: Worker, v: Worker)
    requires w.pc.AwardUpdate?
  {
    var g := w.pc.grant;
    && v.pc.AwardTier? && v == w.(pc := AwardTier(g, v.pc.lifetime), rows := v.rows, locks := v.locks)
    && v.rows.Keys == {g.user}
    && v.rows[g.user].balance == (if g.user in t.accounts then t.accounts[g.user].balance else 0) + g.points
    && v.rows[g.user].lifetime == (if g.user in t.accounts then t.accounts[g.user].lifetime else 0) + g.points
  }

  lemma EnsureWork(t: Tables, w: Worker, w1: Worker) returns (v: Worker)
    requires w.pc.AwardUpdate? && PcFits(w.op, w.pc) && w.rows == map[] && w.pc.grant.user !in t.accounts
    requires w1 == w.(pc := AwardEnsure(w.pc.grant), locks := w1.locks)
    ensures Raised(t, w, v) && Work(t, w1) == Work(t, v)
  {
    hide Work;
    WorkStep(t, w1);
    var w2 := Execute(t, w1);
    WorkStep(t, w2);
    v := Execute(t, w2);
  }

  lemma TierWork(t: Tables, w: Worker, w1: Worker) returns (v: Worker)
    requires w.pc.AwardUpdate? && PcFits(w.op, w.pc) && Raised(t, w, w1)
    ensures Granted(t, w, w.pc.grant, v) && PcFits(v.op, v.pc) && (InBody(v.pc) || v.pc.Finalizing?)
    ensures Work(t, w1) == Work(t, v)
  {
    hide Work;
    WorkStep(t, w1);
    var w2 := Execute(t, w1);
    WorkStep(t, w2);
    v := Execute(t, w2);
  }

  /** awardPoints. */
  ghost predicate AwardMade(t: Tables, u: Tables, op: Op)
    requires op.Award?
  {
    Succeeds(t, op) && Answer(t, op).Done? && Credits(t, u, op.user, op.points, Plain) &&
    u.referrals == t.referrals && u.nextReferral == t.nextReferral
  }

  lemma AwardResult(t: Tables, op: Op)
    requires op.Award?
    ensures AwardMade(t, Result(t, op), op)
  {
    hide Work;
    var v := AwardWork(t, Fresh(op, FirstPc(op)));
    WorkEnds(t, v);
  }

  lemma WorkEnds(t: Tables, w: Worker)
    requires w.pc.Finalizing?
    ensures Work(t, w) == (t, w)
  {
  }

  /** The call throws where it stands. */
  lemma WorkThrows(t: Tables, w: Worker)
    requires InBody(w.pc) && PcFits(w.op, w.pc) && Throws(t, w)
    ensures Work(t, w) == (t, w)
  {
  }

  /** The expiry of points takes them exactly if the user still has that many. */
  ghost predicate ExpiryMade(t: Tables, u: Tables, op: Op)
    requires op.Expire?
  {
    && (Succeeds(t, op) <==> op.user in t.accounts && t.accounts[op.user].balance >= op.points)
    && if Succeeds(t, op) then Debits(t, u, op.user, op.points, Expired) && u.redemptions == t.redemptions else u == t
  }

  lemma ExpiryResult(t: Tables, op: Op)
    requires op.Expire?
    ensures ExpiryMade(t, Result(t, op), op)
  {
    hide Work, AwardStep, ReferStep;
    var w := Fresh(op, ExpireDebit);
    if Throws(t, w) {
      WorkThrows(t, w);
    } else {
      WorkStep(t, w);
      var v := Execute(t, w);
      WorkStep(t, v);
      WorkEnds(t, Execute(t, v));
    }
  }

  /**
   A redemption succeeds exactly if the reward is active, the user can pay for it and is in the tier that it asks for;
   it takes what the reward costs, and it is recorded, and replied, as this user's, for this reward and at this cost.
   */
  ghost predicate RedemptionMade(t: Tables, u: Tables, op: Op)
    requires op.Redeem?
  {
    && (Succeeds(t, op) <==>
          && op.reward in t.rewards && t.rewards[op.reward].active && op.user in t.accounts
          && t.accounts[op.user].balance >= t.rewards[op.reward].cost
          && TierRank(t.accounts[op.user].tier) >= t.rewards[op.reward].minRank)
    && if Succeeds(t, op) then
         var r := Redemption(op.user, op.reward, t.rewards[op.reward].cost);
         Debits(t, u, op.user, r.spent, Redeemed) && u.redemptions == t.redemptions + [r] && Answer(t, op) == Redeeming(r)
       else u == t
  }

  lemma RedemptionResult(t: Tables, op: Op)
    requires op.Redeem?
    ensures RedemptionMade(t, Result(t, op), op)
  {
    hide Work, AwardStep, ReferStep;
    var w := Fresh(op, ReadReward);
    if Throws(t, w) {
      WorkThrows(t, w);
      return;
    }
    WorkStep(t, w);
    var w1 := Execute(t, w);
    if Throws(t, w1) {
      WorkThrows(t, w1);
      return;
    }
    WorkStep(t, w1);
    DebitWork(t, Execute(t, w1), t.rewards[op.reward].cost);
  }

  lemma DebitWork(t: Tables, w: Worker, cost: int)
    requires w.op.Redeem? && w.pc == Debit(cost) && Nothing(w)
    requires w.op.user in t.accounts && t.accounts[w.op.user].balance >= cost
    ensures var (u, v) := Work(t, w);
            var r := Redemption(w.op.user, w.op.reward, cost);
            && u == t && v.pc == Finalizing(Redeeming(r)) && v.redemption == Some(r) && v.referrals == map[]
            && v.rows == map[w.op.user := Debited(t.accounts[w.op.user], cost)]
            && v.entry == Some(Entry(w.op.user, Redeemed, -cost))
  {
    hide Work, AwardStep, ReferStep;
    WorkStep(t, w);
    var w1 := Execute(t, w);
    WorkStep(t, w1);
    var w2 := Execute(t, w1);
    WorkStep(t, w2);
    WorkEnds(t, Execute(t, w2));
  }

  // ---------------------------------------------------------------- referrals

  /**
   Applying a code succeeds exactly if somebody else owns it and the user has applied no other one; the first time there
   is a new referral by the owner of the code, with the bonus due, and the user gets the welcome bonus.
   */
  ghost predicate ReferralMade(t: Tables, u: Tables, op: Op)
    requires op.Apply?
  {
    var known := op.code in t.codes && t.codes[op.code] != op.user;
    if ReferralsOf(t, op.user) == {} then
      && (Succeeds(t, op) <==> known)
      && if !known then u == t
         else
           var r := Answer(t, op);
           && r.Referring? && r.id !in t.referrals
           && u.referrals == t.referrals[r.id := Referral(t.codes[op.code], op.user, op.code, false, REFERRER_BONUS)]
           && Credits(t, u, op.user, WELCOME_BONUS, Welcome(r.id))
    else
      && u == t
      && (Succeeds(t, op) ==>
            && known && Answer(t, op).Referring? && Answer(t, op).id in ReferralsOf(t, op.user)
            && t.referrals[Answer(t, op).id].code == op.code)
      && (known && (forall r | r in ReferralsOf(t, op.user) :: t.referrals[r].code == op.code) ==> Succeeds(t, op))
  }

  lemma ReferralResult(t: Tables, op: Op)
    requires TablesOk(t) && op.Apply?
    ensures ReferralMade(t, Result(t, op), op)
  {
    hide Work, AwardStep, SpendStep, Graded;
    var w := Fresh(op, FindReferrer);
    if Throws(t, w) {
      WorkThrows(t, w);
      return;
    }
    WorkStep(t, w);
    var w1 := Execute(t, w);
    if Throws(t, w1) {
      WorkThrows(t, w1);
      return;
    }
    WorkStep(t, w1);
    var w2 := Execute(t, w1);
    if w2.pc.Finalizing? {
      WorkEnds(t, w2);
      NothingWritten(t, w2.(pc := Committing));
    } else {
      assert ReferralOk(t, t.nextReferral);
      InsertWork(t, w2, t.codes[op.code]);
    }
  }

  lemma InsertWork(t: Tables, w: Worker, referrer: nat)
    requires w.op.Apply? && w.pc == InsertReferral(referrer) && Nothing(w) && t.nextReferral !in t.referrals
    ensures var (u, v) := Work(t, w);
            var c := Committed(u, v.(pc := Committing));
            && v.pc == Finalizing(Referring(t.nextReferral))
            && c.referrals == t.referrals[t.nextReferral := Referral(referrer, w.op.user, w.op.code, false, REFERRER_BONUS)]
            && Credits(t, c, w.op.user, WELCOME_BONUS, Welcome(t.nextReferral))
  {
    hide Work, AwardStep, SpendStep, Graded;
    WorkStep(t, w);
    var w1 := Execute(t, w);
    WorkStep(Bumped(t), w1);
    var w2 := Execute(Bumped(t), w1);
    WelcomeWork(t, w2, referrer);
  }

  lemma WelcomeWork(t: Tables, w: Worker, referrer: nat)
    requires w.op.Apply? && w.pc == AwardUpdate(Grant(w.op.user, WELCOME_BONUS, Welcome(t.nextReferral)))
    requires t.nextReferral !in t.referrals && w.rows == map[] && w.redemption.None?
    requires w.referrals == map[t.nextReferral := Referral(referrer, w.op.user, w.op.code, false, REFERRER_BONUS)]
    ensures var (u, v) := Work(Bumped(t), w);
            var c := Committed(u, v.(pc := Committing));
            && v.pc == Finalizing(Referring(t.nextReferral)) && c.referrals == t.referrals + w.referrals
            && Credits(t, c, w.op.user, WELCOME_BONUS, Welcome(t.nextReferral))
  {
    hide Work;
    var v := AwardWork(Bumped(t), w);
    WorkEnds(Bumped(t), v);
  }

  /** Completing a referral succeeds exactly if it exists; the first time its referrer gets its bonus, later nothing changes. */
  ghost predicate CompletionMade(t: Tables, u: Tables, op: Op)
    requires op.Complete?
  {
    var r := op.referral;
    && (Succeeds(t, op) <==> r in t.referrals)
    && (Succeeds(t, op) ==> Answer(t, op) == Referring(r))
    && if r !in t.referrals || t.referrals[r].rewarded then u == t
       else
         && u.referrals == t.referrals[r := t.referrals[r].(rewarded := true)] && u.nextReferral == t.nextReferral
         && Credits(t, u, t.referrals[r].referrer, t.referrals[r].bonus, Bonus(r))
  }

  lemma CompletionResult(t: Tables, op: Op)
    requires op.Complete?
    ensures CompletionMade(t, Result(t, op), op)
  {
    hide Work, AwardStep, SpendStep, Graded;
    var w := Fresh(op, LockReferral);
    if Throws(t, w) {
      WorkThrows(t, w);
      return;
    }
    WorkStep(t, w);
    var w1 := Execute(t, w);
    if w1.pc.ReadReferral? {
      WorkStep(t, w1);
      WorkEnds(t, Execute(t, w1));
      NothingWritten(t, Execute(t, w1).(pc := Committing));
    } else {
      RewardWork(t, w1);
    }
  }

  lemma RewardWork(t: Tables, w: Worker)
    requires w.op.Complete? && w.op.referral in t.referrals && Nothing(w)
    requires var r := t.referrals[w.op.referral]; w.pc == AwardUpdate(Grant(r.referrer, r.bonus, Bonus(w.op.referral)))
    ensures var (u, v) := Work(t, w);
            var r := t.referrals[w.op.referral];
            var c := Committed(u, v.(pc := Committing));
            && u == t && v.pc == Finalizing(Referring(w.op.referral))
            && c.referrals == t.referrals[w.op.referral := r.(rewarded := true)]
            && Credits(t, c, r.referrer, r.bonus, Bonus(w.op.referral))
  {
    hide Work, AwardStep, SpendStep, Graded;
    var v := AwardWork(t, w);
    WorkStep(t, v);
    var v1 := Execute(t, v);
    WorkStep(t, v1);
    WorkEnds(t, Execute(t, v1));
  }

  /** What each call does to the tables when nobody disturbs it. */
  ghost predicate Made(t: Tables, u: Tables, op: Op) {
    match op
    case Award(_, _) => AwardMade(t, u, op)
    case Expire(_, _) => ExpiryMade(t, u, op)
    case Redeem(_, _) => RedemptionMade(t, u, op)
    case Apply(_, _) => ReferralMade(t, u, op)
    case Complete(_) => CompletionMade(t, u, op)
  }

  /** A call that nobody disturbs commits exactly when it succeeds, with its answer, and has its whole effect or none. */
  lemma UndisturbedCall(s: State, i: nat, op: Op, name: Option<string>) returns (acts: seq<Action>)
    requires AtRest(s) && i !in s.workers && (op.Expire? ==> op.points > 0)
    requires KeyOf(op, name).Some? ==> KeyOf(op, name).value !in s.ledger.rows
    ensures CanRun(s, acts) && i in Run(s, acts).ledger.runs
    ensures var t := Run(s, acts);
            && (t.ledger.runs[i].phase.Committed? <==> Succeeds(s.tables, op))
            && (Succeeds(s.tables, op) ==> t.ledger.runs[i].phase.response == Answer(s.tables, op))
            && Made(s.tables, t.tables, op)
  {
    hide Do, Enabled, AwardMade, ExpiryMade, RedemptionMade, ReferralMade, CompletionMade;
    acts := CallRuns(s, i, op, name);
    match op
    case Award(_, _) => AwardResult(s.tables, op);
    case Expire(_, _) => ExpiryResult(s.tables, op);
    case Redeem(_, _) => RedemptionResult(s.tables, op);
    case Apply(_, _) => ReferralResult(s.tables, op);
    case Complete(_) => CompletionResult(s.tables, op);
  }
}
