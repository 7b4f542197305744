/**
 Loyalty points and referrals: awardPoints, redeemPoints, applyReferralCode, completeReferral, the expiry job
 and initializeLoyaltyAccount as a state machine whose steps are single SQL statements of concurrent transactions.

 As in Settlement, the tables hold committed rows, and a transaction keeps what it has written, and its locks,
 in its worker until it commits or rolls back. A statement that throws has no step: the transaction can only fail.
 */
module Loyalty {
  import opened Prelude
  import Ledger

  // ---------------------------------------------------------------- tiers

  datatype Tier = Bronze | Silver | Gold | Platinum

  function Threshold(t: Tier): int {
    match t
    case Bronze => 0
    case Silver => 1000
    case Gold => 5000
    case Platinum => 15000
  }

  function TierRank(t: Tier): int {
    match t
    case Bronze => 0
    case Silver => 1
    case Gold => 2
    case Platinum => 3
  }

  datatype Account = Account(balance: int, lifetime: int, tier: Tier, progress: int, next: int)

  /** checkAndUpgradeTierForClient. */
  function Graded(a: Account, lifetime: int): Account {
    var tier := if lifetime >= 15000 then Platinum
                else if lifetime >= 5000 then Gold
                else if lifetime >= 1000 then Silver
                else Bronze;
    var next := match tier
      case Bronze => Threshold(Silver)
      case Silver => Threshold(Gold)
      case Gold => Threshold(Platinum)
      case Platinum => 0;
    a.(tier := tier, next := next, progress := if next > 0 then lifetime - Threshold(tier) else 0)
  }

  const NEW_ACCOUNT := Account(0, 0, Bronze, 0, 1000)
  const REFERRER_BONUS := 500
  const WELCOME_BONUS := 200

  // ---------------------------------------------------------------- tables

  /** What an entry of the journal is for. The referral ids are kept for the proofs. */
  datatype Cause = Plain | Welcome(referral: nat) | Bonus(referral: nat)

  datatype Kind = Awarded(cause: Cause) | Redeemed | Expired

  datatype Entry = Entry(user: nat, kind: Kind, points: int)

  datatype Redemption = Redemption(user: nat, reward: nat, spent: int)

  datatype Referral = Referral(referrer: nat, referred: nat, code: string, rewarded: bool, bonus: int)

  /** `minRank` is -1 when the reward names no tier, or one that is not in the tier order. */
  datatype Reward = Reward(cost: int, minRank: int, active: bool)

  datatype Tables = Tables(accounts: map<nat, Account>, journal: seq<Entry>, redemptions: seq<Redemption>,
                           referrals: map<nat, Referral>, nextReferral: nat,
                           rewards: map<nat, Reward>, codes: map<string, nat>)

  datatype Op =
    | Award(user: nat, points: int)
    | Expire(user: nat, points: int)
    | Redeem(user: nat, reward: nat)
    | Apply(user: nat, code: string)
    | Complete(referral: nat)

  datatype Scope = RedeemScope | ApplyScope | CompleteScope

  datatype Key = Key(scope: Scope, name: string)

  datatype Reply = Redeeming(redemption: Redemption) | Referring(id: nat) | Done

  datatype Lock = KeyRow(key: Key) | ReferralRow(id: nat) | UserRow(id: nat) | AccountRow(user: nat)

  datatype Grant = Grant(user: nat, points: int, cause: Cause)

  datatype Pc =
    | Claiming
    | AwardUpdate(grant: Grant)       // awardPointsTransactional
    | AwardEnsure(grant: Grant)
    | AwardAgain(grant: Grant)
    | AwardTier(grant: Grant, lifetime: int)
    | AwardJournal(grant: Grant)
    | ReadReward                      // redeemPoints
    | LockAccount(cost: int, minRank: int)
    | Debit(cost: int)
    | RedeemJournal(cost: int)
    | InsertRedemption(cost: int)
    | ExpireDebit                     // expirePointsJob
    | ExpireJournal
    | FindReferrer                    // applyReferralCode
    | FindReferral(referrer: nat)
    | InsertReferral(referrer: nat)
    | MarkUser(id: nat)
    | LockReferral                    // completeReferral
    | MarkRewarded
    | ReadReferral
    | Finalizing(reply: Reply)
    | Committing
    | Over

  datatype Worker = Worker(op: Op, pc: Pc, locks: set<Lock>, rows: map<nat, Account>, entry: Option<Entry>,
                           redemption: Option<Redemption>, referrals: map<nat, Referral>)

  datatype State = State(tables: Tables, ledger: Ledger.State<Key, Op, Reply>, workers: map<nat, Worker>)

  datatype Action =
    | Begin(id: nat, op: Op, name: Option<string>)
    | Claim(id: nat)
    | Read(id: nat)
    | Body(id: nat)
    | Finalize(id: nat)
    | Commit(id: nat)
    | Fail(id: nat)
    | Crash(id: nat)
    | Stamp(id: nat)
    | OpenAccount(user: nat)                       // initializeLoyaltyAccount, outside a transaction
    | ChangeReward(reward: nat, terms: Reward)     // other parts of the platform
    | ChangeCode(code: string, user: nat)

  // ---------------------------------------------------------------- one statement

  /** awardPoints and the expiry job do not use the idempotency ledger. */
  predicate Keyed(op: Op) { op.Redeem? || op.Apply? || op.Complete? }

  function ScopeOf(op: Op): Scope
    requires Keyed(op)
  {
    match op
    case Redeem(_, _) => RedeemScope
    case Apply(_, _) => ApplyScope
    case Complete(_) => CompleteScope
  }

  function FirstPc(op: Op): Pc {
    match op
    case Award(user, points) => AwardUpdate(Grant(user, points, Plain))
    case Expire(_, _) => ExpireDebit
    case Redeem(_, _) => ReadReward
    case Apply(_, _) => FindReferrer
    case Complete(_) => LockReferral
  }

  predicate InBody(pc: Pc) { !pc.Claiming? && !pc.Finalizing? && !pc.Committing? && !pc.Over? }

  predicate InAward(pc: Pc) {
    pc.AwardUpdate? || pc.AwardEnsure? || pc.AwardAgain? || pc.AwardTier? || pc.AwardJournal?
  }

  predicate PcFits(op: Op, pc: Pc) {
    match pc
    case AwardUpdate(_) | AwardEnsure(_) | AwardAgain(_) | AwardTier(_, _) | AwardJournal(_) =>
      op.Award? || op.Apply? || op.Complete?
    case ReadReward | LockAccount(_, _) | Debit(_) | RedeemJournal(_) | InsertRedemption(_) => op.Redeem?
    case ExpireDebit | ExpireJournal => op.Expire?
    case FindReferrer | FindReferral(_) | InsertReferral(_) | MarkUser(_) => op.Apply?
    case LockReferral | MarkRewarded | ReadReferral => op.Complete?
    case _ => true
  }

  /** The accounts as the transaction sees them. */
  function View(t: Tables, w: Worker): map<nat, Account> { t.accounts + w.rows }

  function ReferralsOf(t: Tables, user: nat): set<nat> {
    set r | r in t.referrals && t.referrals[r].referred == user
  }

  ghost function FirstReferralOf(t: Tables, user: nat): (r: nat)
    requires ReferralsOf(t, user) != {}
    ensures r in t.referrals && t.referrals[r].referred == user
  {
    var r :| r in ReferralsOf(t, user); r
  }

  /** The statement finds what it must not find, or fails to find what it must: the code throws. */
  ghost predicate Throws(t: Tables, w: Worker)
    requires PcFits(w.op, w.pc)
  {
    match w.pc
    case AwardAgain(g) => g.user !in View(t, w)
    case AwardTier(g, _) => g.user !in View(t, w)
    case ReadReward => !(w.op.reward in t.rewards && t.rewards[w.op.reward].active)
    case LockAccount(cost, minRank) =>
      !(w.op.user in t.accounts && t.accounts[w.op.user].balance >= cost && TierRank(t.accounts[w.op.user].tier) >= minRank)
    case Debit(cost) => !(w.op.user in View(t, w) && View(t, w)[w.op.user].balance >= cost)
    case ExpireDebit => !(w.op.user in t.accounts && t.accounts[w.op.user].balance >= w.op.points)
    case FindReferrer => !(w.op.code in t.codes && t.codes[w.op.code] != w.op.user)
    case FindReferral(_) =>
      ReferralsOf(t, w.op.user) != {} && t.referrals[FirstReferralOf(t, w.op.user)].code != w.op.code
    case LockReferral => w.op.referral !in t.referrals
    case MarkRewarded => w.op.referral !in t.referrals
    case _ => false
  }

  ghost predicate CanExecute(t: Tables, w: Worker) { InBody(w.pc) && PcFits(w.op, w.pc) && !Throws(t, w) }

  /** The locks the next body statement needs. An UPDATE does not see, or wait for, a row not yet committed. */
  function Needs(t: Tables, w: Worker): set<Lock>
    requires PcFits(w.op, w.pc)
  {
    match w.pc
    case AwardUpdate(g) => if g.user in t.accounts then {AccountRow(g.user)} else {}
    case AwardEnsure(g) => if g.user in t.accounts then {} else {AccountRow(g.user)}
    case AwardAgain(g) => {AccountRow(g.user)}
    case AwardTier(g, _) => {AccountRow(g.user)}
    case LockAccount(_, _) | Debit(_) | ExpireDebit =>
      if w.op.user in t.accounts then {AccountRow(w.op.user)} else {}
    case FindReferral(_) => set r | r in ReferralsOf(t, w.op.user) :: ReferralRow(r)
    case MarkUser(_) => {UserRow(w.op.user)}
    case LockReferral | MarkRewarded => if w.op.referral in t.referrals then {ReferralRow(w.op.referral)} else {}
    case _ => {}
  }

  function Credited(a: Account, points: int): Account {
    a.(balance := a.balance + points, lifetime := a.lifetime + points)
  }

  function Debited(a: Account, points: int): Account { a.(balance := a.balance - points) }

  /** Where awardPointsTransactional returns to. */
  function AfterAward(op: Op, g: Grant): Pc {
    match op
    case Complete(_) => MarkRewarded
    case Apply(_, _) => Finalizing(if g.cause.Welcome? then Referring(g.cause.referral) else Done)
    case _ => Finalizing(Done)
  }

  ghost function AwardStep(t: Tables, v: Worker): Worker
    requires InAward(v.pc) && PcFits(v.op, v.pc) && !Throws(t, v)
  {
    var g := v.pc.grant;
    match v.pc
    case AwardUpdate(_) =>
      if g.user !in View(t, v) then v.(pc := AwardEnsure(g))
      else
        var a := Credited(View(t, v)[g.user], g.points);
        v.(rows := v.rows[g.user := a], pc := AwardTier(g, a.lifetime))
    case AwardEnsure(_) =>
      if g.user in t.accounts then v.(pc := AwardAgain(g))
      else v.(rows := v.rows[g.user := NEW_ACCOUNT], pc := AwardAgain(g))
    case AwardAgain(_) =>
      var a := Credited(View(t, v)[g.user], g.points);
      v.(rows := v.rows[g.user := a], pc := AwardTier(g, a.lifetime))
    case AwardTier(_, lifetime) =>
      v.(rows := v.rows[g.user := Graded(View(t, v)[g.user], lifetime)], pc := AwardJournal(g))
    case AwardJournal(_) => v.(entry := Some(Entry(g.user, Awarded(g.cause), g.points)), pc := AfterAward(v.op, g))
  }

  ghost function SpendStep(t: Tables, v: Worker): Worker
    requires (v.op.Redeem? || v.op.Expire?) && InBody(v.pc) && PcFits(v.op, v.pc) && !Throws(t, v)
  {
    match v.pc
    case ReadReward => v.(pc := LockAccount(t.rewards[v.op.reward].cost, t.rewards[v.op.reward].minRank))
    case LockAccount(cost, _) => v.(pc := Debit(cost))
    case Debit(cost) =>
      v.(rows := v.rows[v.op.user := Debited(View(t, v)[v.op.user], cost)], pc := RedeemJournal(cost))
    case RedeemJournal(cost) => v.(entry := Some(Entry(v.op.user, Redeemed, -cost)), pc := InsertRedemption(cost))
    case InsertRedemption(cost) =>
      var r := Redemption(v.op.user, v.op.reward, cost);
      v.(redemption := Some(r), pc := Finalizing(Redeeming(r)))
    case ExpireDebit =>
      v.(rows := v.rows[v.op.user := Debited(t.accounts[v.op.user], v.op.points)], pc := ExpireJournal)
    case ExpireJournal => v.(entry := Some(Entry(v.op.user, Expired, -v.op.points)), pc := Finalizing(Done))
  }

  ghost function ReferStep(t: Tables, v: Worker): Worker
    requires (v.op.Apply? || v.op.Complete?) && InBody(v.pc) && !InAward(v.pc) && PcFits(v.op, v.pc) && !Throws(t, v)
  {
    match v.pc
    case FindReferrer => v.(pc := FindReferral(t.codes[v.op.code]))
    case FindReferral(referrer) =>
      if ReferralsOf(t, v.op.user) == {} then v.(pc := InsertReferral(referrer))
      else v.(pc := Finalizing(Referring(FirstReferralOf(t, v.op.user))))
    case InsertReferral(referrer) =>
      var r := Referral(referrer, v.op.user, v.op.code, false, REFERRER_BONUS);
      v.(referrals := map[t.nextReferral := r], locks := v.locks + {ReferralRow(t.nextReferral)},
         pc := MarkUser(t.nextReferral))
    case MarkUser(id) => v.(pc := AwardUpdate(Grant(v.op.user, WELCOME_BONUS, Welcome(id))))
    case LockReferral =>
      var r := t.referrals[v.op.referral];
      v.(pc := if r.rewarded then ReadReferral else AwardUpdate(Grant(r.referrer, r.bonus, Bonus(v.op.referral))))
    case MarkRewarded =>
      v.(referrals := map[v.op.referral := t.referrals[v.op.referral].(rewarded := true)], pc := ReadReferral)
    case ReadReferral => v.(pc := Finalizing(Referring(v.op.referral)))
  }

  ghost function Locked(t: Tables, w: Worker): Worker
    requires PcFits(w.op, w.pc)
  {
    w.(locks := w.locks + Needs(t, w))
  }

  /** The transaction after its statement. A fresh referral takes the id `t.nextReferral`. */
  ghost function Execute(t: Tables, w: Worker): Worker
    requires CanExecute(t, w)
  {
    if InAward(w.pc) then AwardStep(t, Locked(t, w))
    else if w.op.Redeem? || w.op.Expire? then SpendStep(t, Locked(t, w))
    else ReferStep(t, Locked(t, w))
  }

  // ---------------------------------------------------------------- the machine

  function Cleared(w: Worker): Worker { Worker(w.op, Over, {}, map[], None, None, map[]) }

  function Appended<T>(s: seq<T>, x: Option<T>): seq<T> { if x.Some? then s + [x.value] else s }

  function Committed(t: Tables, w: Worker): Tables {
    t.(accounts := t.accounts + w.rows, journal := Appended(t.journal, w.entry),
       redemptions := Appended(t.redemptions, w.redemption), referrals := t.referrals + w.referrals)
  }

  function OnLedger(s: State, a: Action): Option<Ledger.Action<Key, Op, Reply>> {
    match a
    case Begin(id, op, name) =>
      Some(Ledger.Begin(id, if Keyed(op) && name.Some? then Some(Key(ScopeOf(op), name.value)) else None, op))
    case Claim(id) => Some(Ledger.Claim(id))
    case Read(id) => Some(Ledger.Read(id))
    case Finalize(id) =>
      if id in s.workers && s.workers[id].pc.Finalizing? then Some(Ledger.Finalize(id, s.workers[id].pc.reply)) else None
    case Commit(id) => Some(Ledger.Commit(id))
    case Fail(id) => Some(Ledger.Fail(id))
    case Crash(id) => Some(Ledger.Crash(id))
    case Stamp(id) => Some(Ledger.Stamp(id))
    case _ => None
  }

  ghost predicate FreeOf(s: State, id: nat, locks: set<Lock>) {
    forall j | j in s.workers && j != id :: s.workers[j].locks !! locks
  }

  ghost predicate Enabled(s: State, a: Action) {
    && (OnLedger(s, a).Some? ==> Ledger.Enabled(s.ledger, OnLedger(s, a).value))
    && match a
       case Begin(id, op, _) => id !in s.workers && (op.Expire? ==> op.points > 0)
       case Body(id) =>
         id in s.workers && CanExecute(s.tables, s.workers[id]) && FreeOf(s, id, Needs(s.tables, s.workers[id]))
       case Finalize(id) => id in s.workers && s.workers[id].pc.Finalizing?
       case OpenAccount(user) =>
         user in s.tables.accounts || forall j | j in s.workers :: AccountRow(user) !in s.workers[j].locks
       case ChangeReward(_, _) => true
       case ChangeCode(_, _) => true
       case _ => a.id in s.workers
  }

  function AfterClaim(w: Worker, phase: Ledger.Phase<Reply>): Worker {
    if phase.Working? then w.(pc := FirstPc(w.op))
    else if phase.Refused? then Cleared(w)
    else w
  }

  ghost function Do(s: State, a: Action): State
    requires Enabled(s, a)
  {
    var l := OnLedger(s, a);
    var s1 := if l.Some? then s.(ledger := Ledger.Do(s.ledger, l.value)) else s;
    match a
    case Begin(id, op, _) => s1.(workers := s.workers[id := Worker(op, Claiming, {}, map[], None, None, map[])])
    case Claim(id) => s1.(workers := s.workers[id := AfterClaim(s.workers[id], s1.ledger.runs[id].phase)])
    case Read(id) => s1.(workers := s.workers[id := AfterClaim(s.workers[id], s1.ledger.runs[id].phase)])
    case Body(id) =>
      s1.(workers := s.workers[id := Execute(s.tables, s.workers[id])],
          tables := if s.workers[id].pc.InsertReferral? then s.tables.(nextReferral := s.tables.nextReferral + 1)
                    else s.tables)
    case Finalize(id) => s1.(workers := s.workers[id := s.workers[id].(pc := Committing)])
    case Commit(id) =>
      s1.(tables := Committed(s.tables, s.workers[id]), workers := s.workers[id := Cleared(s.workers[id])])
    case Fail(id) => s1.(workers := s.workers[id := Cleared(s.workers[id])])
    case Crash(id) => s1.(workers := s.workers[id := Cleared(s.workers[id])])
    case Stamp(id) => s1
    case OpenAccount(user) =>
      if user in s.tables.accounts then s1
      else s1.(tables := s.tables.(accounts := s.tables.accounts[user := NEW_ACCOUNT]))
    case ChangeReward(reward, terms) => s1.(tables := s.tables.(rewards := s.tables.rewards[reward := terms]))
    case ChangeCode(code, user) => s1.(tables := s.tables.(codes := s.tables.codes[code := user]))
  }

  function Init(): State {
    State(Tables(map[], [], [], map[], 0, map[], map[]), Ledger.Init(), map[])
  }

  ghost predicate CanRun(s: State, acts: seq<Action>)
    decreases |acts|
  {
    acts != [] ==> Enabled(s, acts[0]) && CanRun(Do(s, acts[0]), acts[1..])
  }

  ghost function Run(s: State, acts: seq<Action>): State
    requires CanRun(s, acts)
    decreases |acts|
  {
    if acts == [] then s else Run(Do(s, acts[0]), acts[1..])
  }
}

/** What holds in every reachable state of the loyalty machine, over every interleaving. */
module LoyaltySafety {
  import opened Prelude
  import opened Loyalty
  import Ledger

  // ---------------------------------------------------------------- sums over the journal

  datatype Measure = Points(user: nat) | Lifetime(user: nat) | Spending(user: nat) | Times(cause: Cause)

  function Weight(m: Measure, e: Entry): int {
    match m
    case Points(u) => if e.user == u then e.points else 0
    case Lifetime(u) => if e.user == u && e.kind.Awarded? then e.points else 0
    case Spending(u) => if e.user == u && e.kind.Redeemed? then e.points else 0
    case Times(c) => if e.kind == Awarded(c) then 1 else 0
  }

  function Total(m: Measure, journal: seq<Entry>): int {
    if journal == [] then 0 else Total(m, journal[..|journal| - 1]) + Weight(m, journal[|journal| - 1])
  }

  function Spent(redemptions: seq<Redemption>, user: nat): int {
    if redemptions == [] then 0
    else
      var last := redemptions[|redemptions| - 1];
      Spent(redemptions[..|redemptions| - 1], user) + if last.user == user then last.spent else 0
  }

  lemma TotalAppend(m: Measure, journal: seq<Entry>, e: Entry)
    ensures Total(m, journal + [e]) == Total(m, journal) + Weight(m, e)
  {
    assert (journal + [e])[..|journal|] == journal;
  }

  lemma SpentAppend(redemptions: seq<Redemption>, r: Redemption, user: nat)
    ensures Spent(redemptions + [r], user) == Spent(redemptions, user) + if r.user == user then r.spent else 0
  {
    assert (redemptions + [r])[..|redemptions|] == redemptions;
  }

  lemma {:induction false} NoEntries(journal: seq<Entry>, user: nat)
    requires forall k | 0 <= k < |journal| :: journal[k].user != user
    ensures Total(Points(user), journal) == 0 && Total(Lifetime(user), journal) == 0
  {
    if journal != [] {
      NoEntries(journal[..|journal| - 1], user);
    }
  }

  // ---------------------------------------------------------------- the tables

  /** An account is what its journal says, and its tier, progress and next threshold follow from its lifetime. */
  ghost predicate AccountOk(journal: seq<Entry>, user: nat, a: Account) {
    a.balance == Total(Points(user), journal) && a.lifetime == Total(Lifetime(user), journal) && a == Graded(a, a.lifetime)
  }

  ghost predicate EntryOk(t: Tables, e: Entry) {
    && e.user in t.accounts
    && (e.kind.Awarded? && e.kind.cause.Bonus? ==>
          var r := e.kind.cause.referral;
          r in t.referrals && e.user == t.referrals[r].referrer && e.points == t.referrals[r].bonus)
    && (e.kind.Awarded? && e.kind.cause.Welcome? ==>
          var r := e.kind.cause.referral;
          r in t.referrals && e.user == t.referrals[r].referred && e.points == WELCOME_BONUS)
  }

  ghost predicate ReferralOk(t: Tables, r: nat) {
    && (r in t.referrals ==> r < t.nextReferral && t.referrals[r].referrer != t.referrals[r].referred)
    && Total(Times(Bonus(r)), t.journal) == (if r in t.referrals && t.referrals[r].rewarded then 1 else 0)
    && Total(Times(Welcome(r)), t.journal) == (if r in t.referrals then 1 else 0)
  }

  ghost predicate SpendingOk(t: Tables, user: nat) {
    Total(Spending(user), t.journal) == -Spent(t.redemptions, user)
  }

  ghost predicate TablesOk(t: Tables) {
    && (forall u {:trigger AccountOk(t.journal, u, t.accounts[u])} | u in t.accounts ::
          AccountOk(t.journal, u, t.accounts[u]))
    && (forall k {:trigger EntryOk(t, t.journal[k])} | 0 <= k < |t.journal| :: EntryOk(t, t.journal[k]))
    && (forall r: nat {:trigger ReferralOk(t, r)} :: ReferralOk(t, r))
    && (forall u: nat {:trigger SpendingOk(t, u)} :: SpendingOk(t, u))
  }

  // ---------------------------------------------------------------- the transactions

  /** The one user whose account the transaction works on, once it has started to. */
  function Who(w: Worker): nat {
    if w.entry.Some? then w.entry.value.user
    else if InAward(w.pc) then w.pc.grant.user
    else if w.op.Redeem? || w.op.Expire? then w.op.user
    else 0
  }

  /** What the transaction has written to the account so far: change of balance, change of lifetime points. */
  function Delta(w: Worker): (int, int) {
    if w.entry.Some? then
      (Weight(Points(w.entry.value.user), w.entry.value), Weight(Lifetime(w.entry.value.user), w.entry.value))
    else match w.pc
      case AwardTier(g, _) => (g.points, g.points)
      case AwardJournal(g) => (g.points, g.points)
      case RedeemJournal(cost) => (-cost, 0)
      case ExpireJournal => (if w.op.Expire? then -w.op.points else 0, 0)
      case _ => (0, 0)
  }

  predicate HasWritten(w: Worker) {
    w.entry.Some? || w.pc.AwardTier? || w.pc.AwardJournal? || w.pc.RedeemJournal? || w.pc.ExpireJournal?
  }

  ghost predicate RowOk(t: Tables, w: Worker) {
    var u := Who(w);
    && w.rows.Keys <= {u}
    && (HasWritten(w) ==> u in w.rows)
    && (w.pc.AwardAgain? ==> u in View(t, w))
    && (u in w.rows ==>
          && (HasWritten(w) || w.pc.AwardAgain?)
          && AccountRow(u) in w.locks
          && w.rows[u].balance == Total(Points(u), t.journal) + Delta(w).0
          && w.rows[u].lifetime == Total(Lifetime(u), t.journal) + Delta(w).1
          && (if w.pc.AwardTier? then w.pc.lifetime == w.rows[u].lifetime else w.rows[u] == Graded(w.rows[u], w.rows[u].lifetime)))
  }

  ghost predicate LocksHeld(t: Tables, w: Worker) {
    && (forall r | r in w.referrals :: ReferralRow(r) in w.locks)
    && (forall r: nat | ReferralRow(r) in w.locks :: r < t.nextReferral)
  }

  ghost predicate Nothing(w: Worker) { w.rows == map[] && w.entry.None? && w.redemption.None? && w.referrals == map[] }

  ghost predicate Ended(pc: Pc) { pc.Finalizing? || pc.Committing? }

  ghost predicate AwardOk(w: Worker)
    requires w.op.Award?
  {
    && w.redemption.None? && w.referrals == map[]
    && (InAward(w.pc) ==> w.pc.grant == Grant(w.op.user, w.op.points, Plain) && w.entry.None?)
    && (Ended(w.pc) ==> w.entry == Some(Entry(w.op.user, Awarded(Plain), w.op.points)))
  }

  ghost predicate ExpireOk(w: Worker)
    requires w.op.Expire?
  {
    && w.redemption.None? && w.referrals == map[]
    && (InBody(w.pc) ==> w.entry.None?)
    && (Ended(w.pc) ==> w.entry == Some(Entry(w.op.user, Expired, -w.op.points)))
  }

  ghost predicate RedeemOk(w: Worker)
    requires w.op.Redeem?
  {
    && w.referrals == map[]
    && (InBody(w.pc) && !w.pc.InsertRedemption? ==> w.entry.None? && w.redemption.None?)
    && (w.pc.InsertRedemption? ==> w.entry == Some(Entry(w.op.user, Redeemed, -w.pc.cost)) && w.redemption.None?)
    && (Ended(w.pc) ==>
          && w.redemption.Some? && w.redemption.value.user == w.op.user && w.redemption.value.reward == w.op.reward
          && w.entry == Some(Entry(w.op.user, Redeemed, -w.redemption.value.spent)))
  }

  /** The referral an apply transaction has inserted. */
  ghost predicate NewReferral(t: Tables, w: Worker, id: nat)
    requires w.op.Apply?
  {
    && w.referrals.Keys == {id} && id !in t.referrals && id < t.nextReferral
    && w.referrals[id].referred == w.op.user && !w.referrals[id].rewarded && w.referrals[id].code == w.op.code
    && w.referrals[id].bonus == REFERRER_BONUS && w.referrals[id].referrer != w.op.user
  }

  ghost predicate ApplyOk(t: Tables, w: Worker)
    requires w.op.Apply?
  {
    && w.redemption.None?
    && (w.pc.FindReferrer? || w.pc.FindReferral? || w.pc.InsertReferral? ==> Nothing(w))
    && (w.pc.FindReferral? || w.pc.InsertReferral? ==> w.pc.referrer != w.op.user)
    && (w.pc.MarkUser? ==> NewReferral(t, w, w.pc.id) && w.entry.None?)
    && (InAward(w.pc) ==>
          w.pc.grant.cause.Welcome? && w.entry.None? && NewReferral(t, w, w.pc.grant.cause.referral) &&
          w.pc.grant == Grant(w.op.user, WELCOME_BONUS, Welcome(w.pc.grant.cause.referral)))
    && (Ended(w.pc) && w.entry.None? ==> Nothing(w))
    && (Ended(w.pc) && w.entry.Some? ==>
          var e := w.entry.value;
          e.kind.Awarded? && e.kind.cause.Welcome? && NewReferral(t, w, e.kind.cause.referral) &&
          e == Entry(w.op.user, Awarded(Welcome(e.kind.cause.referral)), WELCOME_BONUS))
  }

  /** The referral a complete transaction has locked and found not yet rewarded. */
  ghost predicate Unrewarded(t: Tables, w: Worker)
    requires w.op.Complete?
  {
    ReferralRow(w.op.referral) in w.locks && w.op.referral in t.referrals && !t.referrals[w.op.referral].rewarded
  }

  ghost predicate CompleteOk(t: Tables, w: Worker)
    requires w.op.Complete?
  {
    && w.redemption.None?
    && (w.pc.LockReferral? ==> Nothing(w))
    && (InAward(w.pc) ==>
          Unrewarded(t, w) && w.entry.None? && w.referrals == map[] &&
          w.pc.grant == Grant(t.referrals[w.op.referral].referrer, t.referrals[w.op.referral].bonus, Bonus(w.op.referral)))
    && (w.pc.MarkRewarded? ==> Unrewarded(t, w) && w.referrals == map[] && BonusEntry(t, w))
    && (w.pc.ReadReferral? || Ended(w.pc) ==>
          if w.entry.None? then Nothing(w)
          else Unrewarded(t, w) && BonusEntry(t, w) &&
               w.referrals == map[w.op.referral := t.referrals[w.op.referral].(rewarded := true)])
  }

  ghost predicate BonusEntry(t: Tables, w: Worker)
    requires w.op.Complete? && w.op.referral in t.referrals
  {
    w.entry == Some(Entry(t.referrals[w.op.referral].referrer, Awarded(Bonus(w.op.referral)), t.referrals[w.op.referral].bonus))
  }

  ghost predicate OpOk(t: Tables, w: Worker) {
    match w.op
    case Award(_, _) => AwardOk(w)
    case Expire(_, _) => ExpireOk(w)
    case Redeem(_, _) => RedeemOk(w)
    case Apply(_, _) => ApplyOk(t, w)
    case Complete(_) => CompleteOk(t, w)
  }

  ghost predicate WorkerOk(t: Tables, w: Worker) {
    && PcFits(w.op, w.pc)
    && (w.pc.Claiming? || w.pc.Over? ==> w.locks == {} && Nothing(w))
    && LocksHeld(t, w)
    && RowOk(t, w)
    && OpOk(t, w)
  }

  ghost predicate InStep(w: Worker, run: Ledger.Attempt<Key, Op, Reply>) {
    && run.hash == w.op
    && (run.key.Some? ==> Keyed(w.op) && run.key.value.scope == ScopeOf(w.op))
    && match run.phase
       case Ready | Conflicted | Replaying(_) => w.pc.Claiming?
       case Working => InBody(w.pc) || w.pc.Finalizing?
       case Finalized(_) => w.pc.Committing?
       case _ => w.pc.Over?
  }

  ghost predicate LocksApart(workers: map<nat, Worker>) {
    forall i, j | i in workers && j in workers && i != j :: workers[i].locks !! workers[j].locks
  }

  ghost predicate InSteps(s: State) {
    && s.ledger.runs.Keys == s.workers.Keys
    && forall j {:trigger InStep(s.workers[j], s.ledger.runs[j])} | j in s.workers :: InStep(s.workers[j], s.ledger.runs[j])
  }

  ghost predicate WorkersOk(s: State) {
    forall j {:trigger WorkerOk(s.tables, s.workers[j])} | j in s.workers :: WorkerOk(s.tables, s.workers[j])
  }

  ghost predicate Inv(s: State) {
    Ledger.Inv(s.ledger) && InSteps(s) && LocksApart(s.workers) && TablesOk(s.tables) && WorkersOk(s)
  }

  // ---------------------------------------------------------------- one statement of a body

  lemma LockedRow(t: Tables, w: Worker)
    requires RowOk(t, w) && OpOk(t, w) && PcFits(w.op, w.pc)
    ensures RowOk(t, Locked(t, w)) && OpOk(t, Locked(t, w))
  {
    hide Needs;
  }

  lemma LockedOk(t: Tables, w: Worker)
    requires TablesOk(t) && WorkerOk(t, w) && CanExecute(t, w)
    ensures LocksHeld(t, Locked(t, w)) && RowOk(t, Locked(t, w)) && OpOk(t, Locked(t, w))
  {
    hide RowOk, OpOk, Throws;
    LockedRow(t, w);
    forall r: nat | ReferralRow(r) in Needs(t, w) ensures r < t.nextReferral {
      assert ReferralOk(t, r);
    }
  }

  lemma AwardStepRow(t: Tables, v: Worker)
    requires TablesOk(t) && RowOk(t, v) && OpOk(t, v) && InAward(v.pc) && PcFits(v.op, v.pc) && !Throws(t, v)
    requires Needs(t, v) <= v.locks
    ensures RowOk(t, AwardStep(t, v))
  {
    var u := v.pc.grant.user;
    assert v.entry.None?;
    if u in t.accounts {
      assert AccountOk(t.journal, u, t.accounts[u]);
    } else if v.pc.AwardEnsure? {
      forall k | 0 <= k < |t.journal| ensures t.journal[k].user != u {
        assert EntryOk(t, t.journal[k]);
      }
      NoEntries(t.journal, u);
    }
  }

  lemma AwardStepOp(t: Tables, v: Worker)
    requires OpOk(t, v) && InAward(v.pc) && PcFits(v.op, v.pc) && !Throws(t, v)
    ensures OpOk(t, AwardStep(t, v)) && PcFits(v.op, AwardStep(t, v).pc)
  {
  }

  lemma SpendStepOk(t: Tables, v: Worker)
    requires TablesOk(t) && RowOk(t, v) && OpOk(t, v) && (v.op.Redeem? || v.op.Expire?)
    requires InBody(v.pc) && PcFits(v.op, v.pc) && !Throws(t, v) && Needs(t, v) <= v.locks
    ensures RowOk(t, SpendStep(t, v)) && OpOk(t, SpendStep(t, v)) && PcFits(v.op, SpendStep(t, v).pc)
  {
    if v.op.user in t.accounts {
      assert AccountOk(t.journal, v.op.user, t.accounts[v.op.user]);
    }
  }

  function Bumped(t: Tables): Tables { t.(nextReferral := t.nextReferral + 1) }

  function After(t: Tables, w: Worker): Tables { if w.pc.InsertReferral? then Bumped(t) else t }

  lemma BumpKeepsTables(t: Tables)
    requires TablesOk(t)
    ensures TablesOk(Bumped(t))
  {
    var u := Bumped(t);
    forall r: nat ensures ReferralOk(u, r) {
      assert ReferralOk(t, r);
    }
    forall user: nat ensures SpendingOk(u, user) {
      assert SpendingOk(t, user);
    }
    forall k | 0 <= k < |u.journal| ensures EntryOk(u, u.journal[k]) {
      assert EntryOk(t, t.journal[k]);
    }
    forall user | user in u.accounts ensures AccountOk(u.journal, user, u.accounts[user]) {
      assert AccountOk(t.journal, user, t.accounts[user]);
    }
  }

  lemma BumpKeepsWorker(t: Tables, w: Worker)
    requires WorkerOk(t, w)
    ensures WorkerOk(Bumped(t), w)
  {
    assert LocksHeld(Bumped(t), w) && RowOk(Bumped(t), w) && OpOk(Bumped(t), w);
  }

  lemma ReferStepOk(t: Tables, v: Worker)
    requires TablesOk(t) && LocksHeld(t, v) && RowOk(t, v) && OpOk(t, v) && (v.op.Apply? || v.op.Complete?)
    requires InBody(v.pc) && !InAward(v.pc) && PcFits(v.op, v.pc) && !Throws(t, v) && Needs(t, v) <= v.locks
    ensures var u := After(t, v);
            LocksHeld(u, ReferStep(t, v)) && RowOk(u, ReferStep(t, v)) && OpOk(u, ReferStep(t, v)) &&
            PcFits(v.op, ReferStep(t, v).pc)
  {
    var x := ReferStep(t, v);
    if v.pc.InsertReferral? {
      assert ReferralOk(t, t.nextReferral);
      assert NewReferral(Bumped(t), x, t.nextReferral);
    }
  }

  lemma ExecuteAward(t: Tables, w: Worker)
    requires TablesOk(t) && WorkerOk(t, w) && CanExecute(t, w) && InAward(w.pc)
    ensures WorkerOk(t, Execute(t, w))
  {
    LockedOk(t, w);
    AwardStepRow(t, Locked(t, w));
    AwardStepOp(t, Locked(t, w));
    assert LocksHeld(t, Execute(t, w));
  }

  lemma ExecuteSpend(t: Tables, w: Worker)
    requires TablesOk(t) && WorkerOk(t, w) && CanExecute(t, w) && (w.op.Redeem? || w.op.Expire?)
    ensures WorkerOk(t, Execute(t, w))
  {
    LockedOk(t, w);
    SpendStepOk(t, Locked(t, w));
    assert LocksHeld(t, Execute(t, w));
  }

  lemma ExecuteRefer(t: Tables, w: Worker)
    requires TablesOk(t) && WorkerOk(t, w) && CanExecute(t, w) && !InAward(w.pc) && (w.op.Apply? || w.op.Complete?)
    ensures WorkerOk(After(t, w), Execute(t, w))
  {
    LockedOk(t, w);
    ReferStepOk(t, Locked(t, w));
  }

  lemma ExecuteOk(t: Tables, w: Worker)
    requires TablesOk(t) && WorkerOk(t, w) && CanExecute(t, w)
    ensures WorkerOk(After(t, w), Execute(t, w))
  {
    if InAward(w.pc) {
      ExecuteAward(t, w);
    } else if w.op.Redeem? || w.op.Expire? {
      ExecuteSpend(t, w);
    } else {
      ExecuteRefer(t, w);
    }
  }

  // ---------------------------------------------------------------- commit

  lemma NothingWritten(t: Tables, w: Worker)
    requires Nothing(w)
    ensures Committed(t, w) == t
  {
    assert t.accounts + w.rows == t.accounts;
    assert t.referrals + w.referrals == t.referrals;
  }

  /** A transaction about to commit has written one account row and its journal entry, or nothing. */
  lemma ReadyToCommit(t: Tables, w: Worker)
    requires WorkerOk(t, w) && (w.pc.Committing? || w.pc.Claiming?) && !Nothing(w)
    ensures w.entry.Some? && w.rows.Keys == {w.entry.value.user}
    ensures AccountRow(w.entry.value.user) in w.locks
  {
  }

  lemma CommitAccounts(t: Tables, w: Worker, u: nat)
    requires TablesOk(t) && WorkerOk(t, w) && w.pc.Committing? && !Nothing(w) && u in Committed(t, w).accounts
    ensures AccountOk(Committed(t, w).journal, u, Committed(t, w).accounts[u])
  {
    ReadyToCommit(t, w);
    TotalAppend(Points(u), t.journal, w.entry.value);
    TotalAppend(Lifetime(u), t.journal, w.entry.value);
    if u in t.accounts {
      assert AccountOk(t.journal, u, t.accounts[u]);
    }
  }

  lemma CommitEntries(t: Tables, w: Worker, k: nat)
    requires TablesOk(t) && WorkerOk(t, w) && w.pc.Committing? && !Nothing(w) && k < |Committed(t, w).journal|
    ensures EntryOk(Committed(t, w), Committed(t, w).journal[k])
  {
    ReadyToCommit(t, w);
    if k < |t.journal| {
      assert EntryOk(t, t.journal[k]);
    }
  }

  lemma CommitReferrals(t: Tables, w: Worker, r: nat)
    requires TablesOk(t) && WorkerOk(t, w) && w.pc.Committing? && !Nothing(w)
    ensures ReferralOk(Committed(t, w), r)
  {
    ReadyToCommit(t, w);
    TotalAppend(Times(Bonus(r)), t.journal, w.entry.value);
    TotalAppend(Times(Welcome(r)), t.journal, w.entry.value);
    assert ReferralOk(t, r);
  }

  lemma RedemptionMatches(t: Tables, w: Worker)
    requires WorkerOk(t, w) && w.pc.Committing? && w.entry.Some?
    ensures if w.redemption.Some? then w.entry.value == Entry(w.redemption.value.user, Redeemed, -w.redemption.value.spent)
            else !w.entry.value.kind.Redeemed?
  {
  }

  lemma SpendingAppend(journal: seq<Entry>, redemptions: seq<Redemption>, e: Entry, r: Option<Redemption>, u: nat)
    requires if r.Some? then e == Entry(r.value.user, Redeemed, -r.value.spent) else !e.kind.Redeemed?
    requires Total(Spending(u), journal) == -Spent(redemptions, u)
    ensures Total(Spending(u), journal + [e]) == -Spent(Appended(redemptions, r), u)
  {
    TotalAppend(Spending(u), journal, e);
    if r.Some? {
      SpentAppend(redemptions, r.value, u);
    }
  }

  lemma CommitSpending(t: Tables, w: Worker, u: nat)
    requires TablesOk(t) && WorkerOk(t, w) && w.pc.Committing? && !Nothing(w)
    ensures SpendingOk(Committed(t, w), u)
  {
    ReadyToCommit(t, w);
    RedemptionMatches(t, w);
    assert SpendingOk(t, u);
    SpendingAppend(t.journal, t.redemptions, w.entry.value, w.redemption, u);
  }

  lemma CommitTablesOk(t: Tables, w: Worker)
    requires TablesOk(t) && WorkerOk(t, w) && (w.pc.Committing? || w.pc.Claiming?)
    ensures TablesOk(Committed(t, w))
  {
    if Nothing(w) {
      NothingWritten(t, w);
      return;
    }
    var v := Committed(t, w);
    forall u | u in v.accounts ensures AccountOk(v.journal, u, v.accounts[u]) { CommitAccounts(t, w, u); }
    forall k | 0 <= k < |v.journal| ensures EntryOk(v, v.journal[k]) { CommitEntries(t, w, k); }
    forall r: nat ensures ReferralOk(v, r) { CommitReferrals(t, w, r); }
    forall u: nat ensures SpendingOk(v, u) { CommitSpending(t, w, u); }
  }

  // ---------------------------------------------------------------- the other transactions during a commit

  lemma RowBesideCommit(t: Tables, w: Worker, v: Worker)
    requires WorkerOk(t, w) && RowOk(t, v) && w.pc.Committing? && !Nothing(w) && v.locks !! w.locks
    ensures RowOk(Committed(t, w), v)
  {
    ReadyToCommit(t, w);
    var u := Who(v);
    if u in v.rows {
      assert AccountRow(u) in v.locks;
      TotalAppend(Points(u), t.journal, w.entry.value);
      TotalAppend(Lifetime(u), t.journal, w.entry.value);
    }
  }

  lemma OpBesideCommit(t: Tables, w: Worker, v: Worker)
    requires LocksHeld(t, w) && LocksHeld(t, v) && OpOk(t, v) && v.locks !! w.locks
    ensures OpOk(Committed(t, w), v)
  {
    var u := Committed(t, w);
    match v.op
    case Apply(_, _) =>
      forall id: nat | id in v.referrals ensures id !in w.referrals {
        assert ReferralRow(id) in v.locks;
      }
    case Complete(r) =>
      if ReferralRow(r) in v.locks {
        assert r !in w.referrals;
        assert r in t.referrals ==> u.referrals[r] == t.referrals[r];
      }
    case _ =>
  }

  lemma OthersAfterCommit(t: Tables, w: Worker, v: Worker)
    requires WorkerOk(t, w) && WorkerOk(t, v) && v.locks !! w.locks && (w.pc.Committing? || w.pc.Claiming?)
    ensures WorkerOk(Committed(t, w), v)
  {
    if Nothing(w) {
      NothingWritten(t, w);
    } else {
      RowBesideCommit(t, w, v);
      OpBesideCommit(t, w, v);
      assert LocksHeld(Committed(t, w), v);
    }
  }

  // ---------------------------------------------------------------- changes made elsewhere

  function Opened(t: Tables, user: nat): Tables { t.(accounts := t.accounts[user := NEW_ACCOUNT]) }

  lemma OpenKeepsTables(t: Tables, user: nat)
    requires TablesOk(t) && user !in t.accounts
    ensures TablesOk(Opened(t, user))
  {
    var v := Opened(t, user);
    forall k | 0 <= k < |t.journal| ensures t.journal[k].user != user && EntryOk(v, v.journal[k]) {
      assert EntryOk(t, t.journal[k]);
    }
    NoEntries(t.journal, user);
    forall u | u in v.accounts ensures AccountOk(v.journal, u, v.accounts[u]) {
      if u != user {
        assert AccountOk(t.journal, u, t.accounts[u]);
      }
    }
    forall r: nat ensures ReferralOk(v, r) {
      assert ReferralOk(t, r);
    }
    forall u: nat ensures SpendingOk(v, u) {
      assert SpendingOk(t, u);
    }
  }

  lemma OpenKeepsWorker(t: Tables, user: nat, w: Worker)
    requires WorkerOk(t, w) && user !in t.accounts && AccountRow(user) !in w.locks
    ensures WorkerOk(Opened(t, user), w)
  {
    assert LocksHeld(Opened(t, user), w) && RowOk(Opened(t, user), w) && OpOk(Opened(t, user), w);
  }

  function Retermed(t: Tables, rewards: map<nat, Reward>, codes: map<string, nat>): Tables {
    t.(rewards := rewards, codes := codes)
  }

  lemma TermsKeepTables(t: Tables, rewards: map<nat, Reward>, codes: map<string, nat>)
    requires TablesOk(t)
    ensures TablesOk(Retermed(t, rewards, codes))
  {
    var v := Retermed(t, rewards, codes);
    forall r: nat ensures ReferralOk(v, r) {
      assert ReferralOk(t, r);
    }
    forall u: nat ensures SpendingOk(v, u) {
      assert SpendingOk(t, u);
    }
    forall k | 0 <= k < |v.journal| ensures EntryOk(v, v.journal[k]) {
      assert EntryOk(t, t.journal[k]);
    }
    forall u | u in v.accounts ensures AccountOk(v.journal, u, v.accounts[u]) {
      assert AccountOk(t.journal, u, t.accounts[u]);
    }
  }

  lemma TermsKeepWorker(t: Tables, rewards: map<nat, Reward>, codes: map<string, nat>, w: Worker)
    requires WorkerOk(t, w)
    ensures WorkerOk(Retermed(t, rewards, codes), w)
  {
    var v := Retermed(t, rewards, codes);
    assert LocksHeld(v, w) && RowOk(v, w) && OpOk(v, w);
  }

  // ---------------------------------------------------------------- every step

  lemma DoKeepsLedger(s: State, a: Action)
    requires Inv(s) && Enabled(s, a)
    ensures Ledger.Inv(Do(s, a).ledger)
  {
    if OnLedger(s, a).Some? {
      Ledger.DoKeepsInv(s.ledger, OnLedger(s, a).value);
    }
  }

  /** The transaction an action belongs to, if it is one of ours. */
  predicate Acts(a: Action, j: nat) { !a.OpenAccount? && !a.ChangeReward? && !a.ChangeCode? && a.id == j }

  lemma OthersInStep(s: State, a: Action, j: nat)
    requires Inv(s) && Enabled(s, a) && j in s.workers && !Acts(a, j)
    ensures Do(s, a).ledger.runs[j] == s.ledger.runs[j] && Do(s, a).workers[j] == s.workers[j]
  {
    if OnLedger(s, a).Some? {
      Ledger.OthersStay(s.ledger, OnLedger(s, a).value, j);
    }
  }

  lemma BodyInStep(t: Tables, w: Worker, run: Ledger.Attempt<Key, Op, Reply>)
    requires CanExecute(t, w) && InStep(w, run)
    ensures InStep(Execute(t, w), run)
  {
  }

  lemma ClaimInStep(s: State, a: Action)
    requires Inv(s) && Enabled(s, a) && (a.Claim? || a.Read?)
    ensures InStep(Do(s, a).workers[a.id], Do(s, a).ledger.runs[a.id])
  {
    assert InStep(s.workers[a.id], s.ledger.runs[a.id]);
  }

  lemma FinishInStep(s: State, a: Action)
    requires Inv(s) && Enabled(s, a) && (a.Finalize? || a.Commit?)
    ensures InStep(Do(s, a).workers[a.id], Do(s, a).ledger.runs[a.id])
  {
    assert InStep(s.workers[a.id], s.ledger.runs[a.id]);
  }

  lemma EndInStep(s: State, a: Action)
    requires Inv(s) && Enabled(s, a) && (a.Fail? || a.Crash? || a.Stamp?)
    ensures InStep(Do(s, a).workers[a.id], Do(s, a).ledger.runs[a.id])
  {
    assert InStep(s.workers[a.id], s.ledger.runs[a.id]);
  }

  lemma KeysMatch(s: State, a: Action)
    requires Inv(s) && Enabled(s, a)
    ensures Do(s, a).ledger.runs.Keys == Do(s, a).workers.Keys
  {
    if OnLedger(s, a).Some? {
      Ledger.KeysAfter(s.ledger, OnLedger(s, a).value);
    }
  }

  lemma DoKeepsInSteps(s: State, a: Action)
    requires Inv(s) && Enabled(s, a)
    ensures InSteps(Do(s, a))
  {
    var u := Do(s, a);
    KeysMatch(s, a);
    forall j | j in u.workers ensures InStep(u.workers[j], u.ledger.runs[j]) {
      if j in s.workers {
        assert InStep(s.workers[j], s.ledger.runs[j]);
        if !Acts(a, j) {
          OthersInStep(s, a, j);
        } else if a.Body? {
          BodyInStep(s.tables, s.workers[j], s.ledger.runs[j]);
        } else if a.Claim? || a.Read? {
          ClaimInStep(s, a);
        } else if a.Finalize? || a.Commit? {
          FinishInStep(s, a);
        } else {
          EndInStep(s, a);
        }
      }
    }
  }

  lemma ExecuteLocks(t: Tables, w: Worker)
    requires CanExecute(t, w)
    ensures Execute(t, w).locks <= w.locks + Needs(t, w) + {ReferralRow(t.nextReferral)}
  {
  }

  lemma BodyKeepsLocksApart(s: State, id: nat)
    requires Inv(s) && Enabled(s, Body(id))
    ensures LocksApart(Do(s, Body(id)).workers)
  {
    ExecuteLocks(s.tables, s.workers[id]);
    forall j | j in s.workers && j != id ensures s.workers[j].locks !! Execute(s.tables, s.workers[id]).locks {
      assert WorkerOk(s.tables, s.workers[j]);
      assert ReferralRow(s.tables.nextReferral) !in s.workers[j].locks;
    }
  }

  lemma DoKeepsLocksApart(s: State, a: Action)
    requires Inv(s) && Enabled(s, a)
    ensures LocksApart(Do(s, a).workers)
  {
    hide Ledger.Inv, TablesOk, WorkersOk, InSteps;
    if a.Body? {
      BodyKeepsLocksApart(s, a.id);
    } else {
      forall j | j in Do(s, a).workers
        ensures if j in s.workers then Do(s, a).workers[j].locks <= s.workers[j].locks else Do(s, a).workers[j].locks == {} {
      }
    }
  }

  lemma DoKeepsTables(s: State, a: Action)
    requires Inv(s) && Enabled(s, a)
    ensures TablesOk(Do(s, a).tables)
  {
    match a
    case Body(_) => BumpKeepsTables(s.tables);
    case Commit(id) =>
      assert InStep(s.workers[id], s.ledger.runs[id]) && WorkerOk(s.tables, s.workers[id]);
      CommitTablesOk(s.tables, s.workers[id]);
    case OpenAccount(user) =>
      if user !in s.tables.accounts {
        OpenKeepsTables(s.tables, user);
      }
    case ChangeReward(reward, terms) => TermsKeepTables(s.tables, s.tables.rewards[reward := terms], s.tables.codes);
    case ChangeCode(code, user) => TermsKeepTables(s.tables, s.tables.rewards, s.tables.codes[code := user]);
    case _ =>
  }

  lemma BodyKeepsWorker(s: State, id: nat, j: nat)
    requires Inv(s) && Enabled(s, Body(id)) && j in s.workers
    ensures WorkerOk(Do(s, Body(id)).tables, Do(s, Body(id)).workers[j])
  {
    assert WorkerOk(s.tables, s.workers[j]);
    if j != id {
      BumpKeepsWorker(s.tables, s.workers[j]);
    } else {
      ExecuteOk(s.tables, s.workers[j]);
    }
  }

  lemma ClearedOk(t: Tables, w: Worker)
    ensures WorkerOk(t, Cleared(w)) && WorkerOk(t, Cleared(w).(pc := Claiming))
  {
  }

  lemma CommitKeepsWorker(s: State, id: nat, j: nat)
    requires Inv(s) && Enabled(s, Commit(id)) && j in s.workers
    ensures WorkerOk(Do(s, Commit(id)).tables, Do(s, Commit(id)).workers[j])
  {
    if j == id {
      ClearedOk(Do(s, Commit(id)).tables, s.workers[id]);
    } else {
      assert InStep(s.workers[id], s.ledger.runs[id]);
      assert WorkerOk(s.tables, s.workers[id]) && WorkerOk(s.tables, s.workers[j]);
      OthersAfterCommit(s.tables, s.workers[id], s.workers[j]);
    }
  }

  lemma FirstOk(t: Tables, w: Worker)
    requires WorkerOk(t, w) && w.pc.Claiming?
    ensures WorkerOk(t, w.(pc := FirstPc(w.op)))
  {
  }

  lemma CommittingOk(t: Tables, w: Worker)
    requires WorkerOk(t, w) && w.pc.Finalizing?
    ensures WorkerOk(t, w.(pc := Committing))
  {
    var v := w.(pc := Committing);
    assert LocksHeld(t, v) && RowOk(t, v) && OpOk(t, v);
  }

  lemma PhaseKeepsWorker(s: State, a: Action, j: nat)
    requires Inv(s) && Enabled(s, a) && j in s.workers
    requires a.Claim? || a.Read? || a.Finalize? || a.Fail? || a.Crash?
    ensures WorkerOk(s.tables, Do(s, a).workers[j])
  {
    hide Ledger.Inv, LocksApart, TablesOk;
    var w := s.workers[j];
    assert WorkerOk(s.tables, w);
    if a.id == j {
      assert InStep(w, s.ledger.runs[j]);
      ClearedOk(s.tables, w);
      if w.pc.Claiming? {
        FirstOk(s.tables, w);
      } else if w.pc.Finalizing? {
        CommittingOk(s.tables, w);
      }
    }
  }

  lemma DoKeepsWorkers(s: State, a: Action)
    requires Inv(s) && Enabled(s, a)
    ensures WorkersOk(Do(s, a))
  {
    hide Ledger.Inv, LocksApart;
    var u := Do(s, a);
    forall j | j in u.workers ensures WorkerOk(u.tables, u.workers[j]) {
      if j !in s.workers {
        ClearedOk(s.tables, u.workers[j]);
      } else {
        assert WorkerOk(s.tables, s.workers[j]);
        match a {
          case Body(id) => BodyKeepsWorker(s, id, j);
          case Commit(id) => CommitKeepsWorker(s, id, j);
          case OpenAccount(user) =>
            if user !in s.tables.accounts {
              OpenKeepsWorker(s.tables, user, s.workers[j]);
            }
          case ChangeReward(reward, terms) =>
            TermsKeepWorker(s.tables, s.tables.rewards[reward := terms], s.tables.codes, s.workers[j]);
          case ChangeCode(code, user) =>
            TermsKeepWorker(s.tables, s.tables.rewards, s.tables.codes[code := user], s.workers[j]);
          case Begin(_, _, _) =>
          case Stamp(_) =>
          case _ => PhaseKeepsWorker(s, a, j);
        }
      }
    }
  }

  lemma DoKeepsInv(s: State, a: Action)
    requires Inv(s) && Enabled(s, a)
    ensures Inv(Do(s, a))
  {
    DoKeepsLedger(s, a);
    DoKeepsInSteps(s, a);
    DoKeepsLocksApart(s, a);
    DoKeepsTables(s, a);
    DoKeepsWorkers(s, a);
  }

  lemma {:induction false} RunKeepsInv(s: State, acts: seq<Action>)
    requires Inv(s) && CanRun(s, acts)
    ensures Inv(Run(s, acts))
    decreases |acts|
  {
    if acts != [] {
      DoKeepsInv(s, acts[0]);
      RunKeepsInv(Do(s, acts[0]), acts[1..]);
    }
  }
}
