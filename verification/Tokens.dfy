/**
 The account lifecycle: tokens that are issued, consumed and revoked, and the operator rows they act on, as a machine
 whose steps are single SQL statements of concurrent transactions. A transaction keeps its writes and its row locks to
 itself until it commits; a statement waits while a row it writes is locked by another one.

 A raw token and its digest are both the token's id here, passwords are tags, and operator emails are in lower case.
 */
module Tokens {
  import opened Prelude

  datatype Purpose = Invitation | EmailVerification | PasswordReset

  datatype Token = Token(purpose: Purpose, email: string, operator: Option<nat>, organization: Option<string>,
                         tenant: Option<string>, role: Option<string>, expires: int, consumed: bool, revoked: bool)

  datatype Operator = Operator(email: string, tenant: Option<string>, role: string, verified: bool, active: bool, password: nat)

  datatype Job =
    | Issue(newToken: nat, token: Token)
    | Verify(used: nat)
    | Reset(used: nat, password: nat)
    | Accept(used: nat, password: nat, newOperator: nat)
    | Found(founder: nat, newTenant: string)   // createOrganizationAndTenant

  datatype Pc = Revoking | Inserting | Consuming | Finding | Writing | Committing

  /** `taken` is the consumed row as it was returned, `found` the operator row locked by the SELECT. */
  datatype Worker = Worker(job: Job, pc: Pc, revokes: set<nat>, taken: Option<Token>, found: Option<nat>,
                           write: Option<(nat, Operator)>)

  /** A committed use of a token. */
  datatype Effect = Effect(token: nat, purpose: Purpose, operator: nat)

  datatype State = State(tokens: map<nat, Token>, operators: map<nat, Operator>, effects: seq<Effect>,
                         workers: map<nat, Worker>)

  datatype Action =
    | Begin(id: nat, job: Job)
    | Next(id: nat, now: int)                       // the next statement succeeds
    | Fail(id: nat)                                 // a statement throws or the connection dies: ROLLBACK
    | RevokeInvitation(token: nat, organization: string, tenant: string, now: int)
    | EnsureExternal(newOperator: nat, email: string, claimed: Option<string>)
    | Signup(newOperator: nat, email: string, password: nat)
    | Approve(operator: nat)
    | ChangeRole(operator: nat, role: string)

  // ---------------------------------------------------------------- rows

  /** JavaScript truthiness of a text column. */
  predicate Given(text: Option<string>) { text.Some? && text.value != "" }

  predicate Open(t: Token) { !t.consumed && !t.revoked }

  predicate Uses(job: Job) { job.Verify? || job.Reset? || job.Accept? }

  function PurposeOf(job: Job): Purpose {
    if job.Verify? then EmailVerification else if job.Reset? then PasswordReset else Invitation
  }

  /** The row that consumeToken returned has what the rest of the transaction needs. */
  predicate Complete(job: Job, t: Token) {
    if job.Accept? then Given(t.tenant) && Given(t.organization) && Given(t.role)
    else t.operator.Some? && t.operator.value != 0
  }

  /** The rows that the UPDATE of issueToken matches. */
  function Superseded(s: State, t: Token): set<nat> {
    set i | i in s.tokens && s.tokens[i].purpose == t.purpose && s.tokens[i].email == t.email && Open(s.tokens[i])
  }

  predicate HasEmail(s: State, o: nat, email: string) { o in s.operators && s.operators[o].email == email }

  // ---------------------------------------------------------------- locks

  predicate LocksToken(w: Worker, t: nat) { t in w.revokes || (w.taken.Some? && Uses(w.job) && t == w.job.used) }

  predicate LocksOperator(w: Worker, o: nat) { w.found == Some(o) || (w.write.Some? && w.write.value.0 == o) }

  /** A pending INSERT of an operator with the email. */
  predicate Claims(s: State, w: Worker, email: string) {
    w.write.Some? && w.write.value.0 !in s.operators && w.write.value.1.email == email
  }

  predicate TokenFree(s: State, id: Option<nat>, t: nat) {
    forall j | j in s.workers && Some(j) != id :: !LocksToken(s.workers[j], t)
  }

  predicate OperatorFree(s: State, id: Option<nat>, o: nat) {
    forall j | j in s.workers && Some(j) != id :: !LocksOperator(s.workers[j], o)
  }

  predicate EmailFree(s: State, email: string) {
    (forall o | o in s.operators :: s.operators[o].email != email) &&
    (forall j | j in s.workers :: !Claims(s, s.workers[j], email))
  }

  // ---------------------------------------------------------------- steps

  predicate CanConsume(s: State, id: nat, w: Worker, now: int) {
    Uses(w.job) && w.job.used in s.tokens && TokenFree(s, Some(id), w.job.used) &&
    var t := s.tokens[w.job.used];
    t.purpose == PurposeOf(w.job) && Open(t) && t.expires > now && Complete(w.job, t)
  }

  /** The operator row that the worker is about to lock or update. */
  ghost predicate Target(s: State, w: Worker, o: nat) {
    match w.job
    case Accept(_, _, _) => w.taken.Some? && HasEmail(s, o, w.taken.value.email)
    case Found(founder, _) => o == founder && o in s.operators
    case Verify(_) => w.taken.Some? && w.taken.value.operator == Some(o) && HasEmail(s, o, w.taken.value.email)
    case Reset(_, _) => w.taken.Some? && w.taken.value.operator == Some(o) && HasEmail(s, o, w.taken.value.email)
    case Issue(_, _) => false
  }

  /** SELECT .. FOR UPDATE, and the checks on the row it returns. */
  ghost predicate CanFind(s: State, id: nat, w: Worker) {
    (w.job.Accept? ==> w.taken.Some?) &&
    (w.job.Found? ==> w.job.founder in s.operators) &&
    forall o | Target(s, w, o) ::
      OperatorFree(s, Some(id), o) &&
      if w.job.Found? then s.operators[o].verified && s.operators[o].active && !Given(s.operators[o].tenant)
      else Given(s.operators[o].tenant) ==> s.operators[o].tenant == w.taken.value.tenant
  }

  ghost function Chosen(s: State, w: Worker): Option<nat> {
    if exists o :: Target(s, w, o) then
      var o :| Target(s, w, o);
      Some(o)
    else None
  }

  ghost predicate CanWrite(s: State, id: nat, w: Worker) {
    match w.job
    case Accept(_, _, newOperator) =>
      w.taken.Some? && w.taken.value.role.Some? &&
      if w.found.Some? then w.found.value in s.operators
      else newOperator !in s.operators && OperatorFree(s, None, newOperator) && EmailFree(s, w.taken.value.email)
    case Found(founder, newTenant) => founder in s.operators && w.found == Some(founder) && newTenant != ""
    case Issue(_, _) => false
    case _ => w.taken.Some? && exists o :: Target(s, w, o) && OperatorFree(s, Some(id), o)
  }

  /** The operator row that the transaction writes. */
  ghost function Written(s: State, w: Worker): (nat, Operator)
    requires match w.job
             case Accept(_, _, _) => w.taken.Some? && w.taken.value.role.Some? && (w.found.Some? ==> w.found.value in s.operators)
             case Found(founder, _) => founder in s.operators
             case Issue(_, _) => false
             case _ => exists o :: Target(s, w, o)
  {
    match w.job
    case Accept(_, password, newOperator) =>
      var t := w.taken.value;
      if w.found.Some? then
        (w.found.value, s.operators[w.found.value].(role := t.role.value, tenant := t.tenant, password := password,
                                                     active := true, verified := true))
      else (newOperator, Operator(t.email, t.tenant, t.role.value, true, true, password))
    case Found(founder, newTenant) => (founder, s.operators[founder].(tenant := Some(newTenant)))
    case Verify(_) =>
      var o := w.taken.value.operator.value;
      (o, s.operators[o].(verified := true, active := true))
    case Reset(_, password) =>
      var o := w.taken.value.operator.value;
      (o, s.operators[o].(password := password))
  }

  ghost predicate CanStep(s: State, id: nat, now: int)
    requires id in s.workers
  {
    var w := s.workers[id];
    match w.pc
    case Revoking => w.job.Issue? && forall t | t in Superseded(s, w.job.token) :: TokenFree(s, Some(id), t)
    case Inserting => w.job.Issue? && w.job.newToken !in s.tokens
    case Consuming => CanConsume(s, id, w, now)
    case Finding => (w.job.Accept? || w.job.Found?) && CanFind(s, id, w)
    case Writing => CanWrite(s, id, w)
    case Committing => w.job.Issue? ==> w.job.newToken !in s.tokens
  }

  ghost predicate Enabled(s: State, a: Action) {
    match a
    case Begin(id, job) => id !in s.workers && (job.Issue? ==> Open(job.token))
    case Next(id, now) => id in s.workers && CanStep(s, id, now)
    case Fail(id) => id in s.workers
    case RevokeInvitation(token, _, _, _) => token in s.tokens && TokenFree(s, None, token)
    case EnsureExternal(newOperator, email, _) => CanUpsert(s, newOperator, email)
    case Signup(newOperator, email, _) => CanUpsert(s, newOperator, email)
    case Approve(operator) => operator in s.operators && OperatorFree(s, None, operator)
    case ChangeRole(operator, _) => operator in s.operators && OperatorFree(s, None, operator)
  }

  /** INSERT .. ON CONFLICT (email) DO UPDATE waits for whoever holds the row or has inserted the email. */
  ghost predicate CanUpsert(s: State, newOperator: nat, email: string) {
    newOperator !in s.operators && OperatorFree(s, None, newOperator) &&
    (forall o | HasEmail(s, o, email) :: OperatorFree(s, None, o)) &&
    (forall j | j in s.workers :: !Claims(s, s.workers[j], email))
  }

  function FirstPc(job: Job): Pc { if job.Issue? then Revoking else if job.Found? then Finding else Consuming }

  function PutWorker(s: State, id: nat, w: Worker): State { s.(workers := s.workers[id := w]) }

  /** The token rows after the transaction has committed. */
  function TokensAfter(tokens: map<nat, Token>, w: Worker): map<nat, Token> {
    var used := map t | t in tokens ::
      if t in w.revokes then tokens[t].(revoked := true)
      else if LocksToken(w, t) then tokens[t].(consumed := true)
      else tokens[t];
    if w.job.Issue? then used[w.job.newToken := w.job.token] else used
  }

  function Committed(s: State, id: nat): State
    requires id in s.workers
  {
    var w := s.workers[id];
    State(TokensAfter(s.tokens, w),
          if w.write.Some? then s.operators[w.write.value.0 := w.write.value.1] else s.operators,
          s.effects + if Uses(w.job) && w.write.Some? then [Effect(w.job.used, PurposeOf(w.job), w.write.value.0)] else [],
          s.workers - {id})
  }

  ghost function Step(s: State, id: nat): State
    requires id in s.workers && exists now :: CanStep(s, id, now)
  {
    var w := s.workers[id];
    match w.pc
    case Revoking => PutWorker(s, id, w.(pc := Inserting, revokes := Superseded(s, w.job.token)))
    case Inserting => PutWorker(s, id, w.(pc := Committing))
    case Consuming =>
      PutWorker(s, id, w.(pc := if w.job.Accept? then Finding else Writing, taken := Some(s.tokens[w.job.used])))
    case Finding => PutWorker(s, id, w.(pc := Writing, found := Chosen(s, w)))
    case Writing => PutWorker(s, id, w.(pc := Committing, write := Some(Written(s, w))))
    case Committing => Committed(s, id)
  }

  /** An upsert of an operator row by its email. */
  ghost function Upsert(s: State, newOperator: nat, email: string, row: Operator, update: Operator -> Operator): State {
    if exists o :: HasEmail(s, o, email) then
      var o :| HasEmail(s, o, email);
      s.(operators := s.operators[o := update(s.operators[o])])
    else s.(operators := s.operators[newOperator := row])
  }

  ghost function Do(s: State, a: Action): State
    requires Enabled(s, a)
  {
    match a
    case Begin(id, job) => PutWorker(s, id, Worker(job, FirstPc(job), {}, None, None, None))
    case Next(id, _) => Step(s, id)
    case Fail(id) => s.(workers := s.workers - {id})
    case RevokeInvitation(token, organization, tenant, now) =>
      var t := s.tokens[token];
      if t.purpose.Invitation? && t.tenant == Some(tenant) && t.organization == Some(organization) && Open(t) && t.expires > now
      then s.(tokens := s.tokens[token := t.(revoked := true)]) else s
    case EnsureExternal(newOperator, email, claimed) =>
      Upsert(s, newOperator, email, Operator(email, claimed, "operator", false, false, 0),
             (o: Operator) => o.(tenant := if o.tenant.Some? then o.tenant else claimed))
    case Signup(newOperator, email, password) =>
      Upsert(s, newOperator, email, Operator(email, None, "admin", false, false, password),
             (o: Operator) => if o.verified then o else o.(password := password, active := false))
    case Approve(operator) => s.(operators := s.operators[operator := s.operators[operator].(active := true, verified := true)])
    case ChangeRole(operator, role) => s.(operators := s.operators[operator := s.operators[operator].(role := role)])
  }

  /** Nothing is in flight, no token has been consumed yet, and emails are unique. */
  ghost predicate Fresh(s: State) {
    s.workers == map[] && s.effects == [] && UniqueEmails(s) && forall t | t in s.tokens :: !s.tokens[t].consumed
  }

  ghost predicate CanRun(s: State, acts: seq<Action>)
    decreases |acts|, 0
  {
    acts != [] ==> CanRun(s, acts[..|acts| - 1]) && Enabled(Run(s, acts[..|acts| - 1]), acts[|acts| - 1])
  }

  ghost function Run(s: State, acts: seq<Action>): State
    requires CanRun(s, acts)
    decreases |acts|, 1
  {
    if acts == [] then s else Do(Run(s, acts[..|acts| - 1]), acts[|acts| - 1])
  }

  // ---------------------------------------------------------------- the invariant

  ghost predicate UniqueEmails(s: State) {
    forall o, p | o in s.operators && p in s.operators && s.operators[o].email == s.operators[p].email :: o == p
  }

  ghost predicate TokensOk(s: State) { forall t | t in s.tokens :: !(s.tokens[t].consumed && s.tokens[t].revoked) }

  ghost predicate HasEffect(s: State, t: nat) { exists p :: 0 <= p < |s.effects| && s.effects[p].token == t }

  ghost predicate EffectsOk(s: State) {
    && (forall p, q | 0 <= p < q < |s.effects| :: s.effects[p].token != s.effects[q].token)
    && (forall p | 0 <= p < |s.effects| ::
          var e := s.effects[p];
          e.token in s.tokens && s.tokens[e.token].consumed && s.tokens[e.token].purpose == e.purpose)
    && (forall t {:trigger HasEffect(s, t)} | t in s.tokens && s.tokens[t].consumed :: HasEffect(s, t))
  }

  ghost predicate RevokesOk(s: State, w: Worker) {
    && (w.revokes != {} ==> w.job.Issue?)
    && (forall t | t in w.revokes :: t in s.tokens && Open(s.tokens[t]) &&
                                     s.tokens[t].purpose == w.job.token.purpose && s.tokens[t].email == w.job.token.email)
    && (w.job.Issue? ==> Open(w.job.token) && !w.pc.Finding? && !w.pc.Writing? && !w.pc.Consuming?)
  }

  ghost predicate TakenOk(s: State, w: Worker) {
    && (w.taken.Some? ==> Uses(w.job) && w.job.used in s.tokens && s.tokens[w.job.used] == w.taken.value &&
                          Open(w.taken.value) && w.taken.value.purpose == PurposeOf(w.job) && Complete(w.job, w.taken.value))
    && (Uses(w.job) && !w.pc.Consuming? ==> w.taken.Some?)
  }

  /** The row found or written belongs to the operator it is meant for, and does not move it to another tenant. */
  ghost predicate OperatorOk(s: State, w: Worker) {
    && (w.found.Some? ==> w.found.value in s.operators && (w.job.Accept? || w.job.Found?) &&
                          (w.job.Accept? ==> w.taken.Some? && s.operators[w.found.value].email == w.taken.value.email) &&
                          MayMove(s.operators[w.found.value], w))
    && (w.job.Accept? && (w.pc.Writing? || w.pc.Committing?) && w.found.None? && w.write.None? ==> w.taken.Some?)
    && (w.write.Some? ==> WriteOk(s, w, w.write.value.0, w.write.value.1))
    && (w.pc.Committing? && !w.job.Issue? ==> w.write.Some?)
    && (w.job.Issue? ==> w.write.None? && w.found.None?)
  }

  ghost predicate MayMove(o: Operator, w: Worker) {
    if w.job.Found? then !Given(o.tenant) else Given(o.tenant) ==> w.taken.Some? && o.tenant == w.taken.value.tenant
  }

  ghost predicate WriteOk(s: State, w: Worker, o: nat, row: Operator) {
    && (o in s.operators ==>
          row.email == s.operators[o].email && (Given(s.operators[o].tenant) ==> row.tenant == s.operators[o].tenant))
    && (o !in s.operators ==> forall p | p in s.operators :: s.operators[p].email != row.email)
    && Applied(w, row)
  }

  /** The row shows what the token, or the founder, was to achieve. */
  ghost predicate Applied(w: Worker, row: Operator) {
    match w.job
    case Accept(_, password, _) =>
      w.taken.Some? && row.email == w.taken.value.email && row.tenant == w.taken.value.tenant &&
      Some(row.role) == w.taken.value.role && row.verified && row.active && row.password == password
    case Verify(_) => w.taken.Some? && row.email == w.taken.value.email && row.verified && row.active
    case Reset(_, password) => w.taken.Some? && row.email == w.taken.value.email && row.password == password
    case Found(_, newTenant) => row.tenant == Some(newTenant) && newTenant != ""
    case Issue(_, _) => false
  }

  ghost predicate WorkerOk(s: State, w: Worker) { RevokesOk(s, w) && TakenOk(s, w) && OperatorOk(s, w) }

  ghost predicate Apart(s: State, i: nat, j: nat)
    requires i in s.workers && j in s.workers
  {
    && (forall t | LocksToken(s.workers[i], t) :: !LocksToken(s.workers[j], t))
    && (forall o | LocksOperator(s.workers[i], o) :: !LocksOperator(s.workers[j], o))
    && (forall e: string | Claims(s, s.workers[i], e) :: !Claims(s, s.workers[j], e))
  }

  ghost predicate Inv(s: State) {
    && UniqueEmails(s) && TokensOk(s) && EffectsOk(s)
    && (forall i {:trigger WorkerOk(s, s.workers[i])} | i in s.workers :: WorkerOk(s, s.workers[i]))
    && (forall i, j {:trigger Apart(s, i, j)} | i in s.workers && j in s.workers && i != j :: Apart(s, i, j))
  }

  // ---------------------------------------------------------------- what a step touches

  /** The worker that takes the step, if one does. */
  function Actor(a: Action): Option<nat> { if a.Begin? || a.Next? || a.Fail? then Some(a.id) else None }

  lemma OtherWorkersStay(s: State, a: Action, j: nat)
    requires Enabled(s, a) && Actor(a) != Some(j)
    ensures j in Do(s, a).workers <==> j in s.workers
    ensures j in s.workers ==> Do(s, a).workers[j] == s.workers[j]
  {
  }

  lemma UpsertTouches(s: State, newOperator: nat, email: string, row: Operator, update: Operator -> Operator, o: nat)
    requires CanUpsert(s, newOperator, email) && row.email == email && forall x :: update(x).email == x.email
    ensures var t := Upsert(s, newOperator, email, row, update);
            && t.tokens == s.tokens && t.effects == s.effects && t.workers == s.workers
            && (o in s.operators ==> o in t.operators && t.operators[o].email == s.operators[o].email)
            && (o in s.operators && t.operators[o] != s.operators[o] ==>
                  OperatorFree(s, None, o) && t.operators[o] == update(s.operators[o]))
            && (o in t.operators && o !in s.operators ==>
                  OperatorFree(s, None, o) && t.operators[o] == row && EmailFree(s, email))
  {
    if exists p :: HasEmail(s, p, email) {
      var t := Upsert(s, newOperator, email, row, update);
      var p :| HasEmail(s, p, email) && t.operators == s.operators[p := update(s.operators[p])];
    } else {
      assert forall p | p in s.operators :: !HasEmail(s, p, email);
    }
  }

  /** No worker but the one that takes the step has the operator row locked. */
  ghost predicate OthersLeaveOperator(s: State, a: Action, o: nat) {
    forall j | j in s.workers && Actor(a) != Some(j) :: !LocksOperator(s.workers[j], o)
  }

  ghost predicate OthersLeaveToken(s: State, a: Action, i: nat) {
    forall j | j in s.workers && Actor(a) != Some(j) :: !LocksToken(s.workers[j], i)
  }

  lemma OperatorsTouched(s: State, a: Action, o: nat)
    requires Inv(s) && Enabled(s, a)
    ensures var t := Do(s, a);
            && (o in s.operators ==> o in t.operators && t.operators[o].email == s.operators[o].email)
            && (o in s.operators && Given(s.operators[o].tenant) ==> t.operators[o].tenant == s.operators[o].tenant)
            && (o in s.operators && t.operators[o] != s.operators[o] ==> OthersLeaveOperator(s, a, o))
            && (o in t.operators && o !in s.operators ==> OthersLeaveOperator(s, a, o) && NewEmail(s, a, t.operators[o].email))
  {
    hide EffectsOk, TokensOk, UniqueEmails, Applied;
    match a
    case EnsureExternal(newOperator, email, claimed) =>
      UpsertTouches(s, newOperator, email, Operator(email, claimed, "operator", false, false, 0),
                    (x: Operator) => x.(tenant := if x.tenant.Some? then x.tenant else claimed), o);
    case Signup(newOperator, email, password) =>
      UpsertTouches(s, newOperator, email, Operator(email, None, "admin", false, false, password),
                    (x: Operator) => if x.verified then x else x.(password := password, active := false), o);
    case Next(id, now) =>
      var w := s.workers[id];
      assert WorkerOk(s, w);
      if w.pc.Committing? && w.write.Some? && w.write.value.0 == o {
        CommitAlone(s, a, o);
      }
    case _ =>
  }

  ghost predicate NewEmail(s: State, a: Action, email: string) {
    (forall p | p in s.operators :: s.operators[p].email != email) &&
    (forall j | j in s.workers && Actor(a) != Some(j) :: !Claims(s, s.workers[j], email))
  }

  lemma CommitAlone(s: State, a: Action, o: nat)
    requires Inv(s) && a.Next? && a.id in s.workers && s.workers[a.id].write.Some? && s.workers[a.id].write.value.0 == o
    ensures OthersLeaveOperator(s, a, o)
    ensures o !in s.operators ==> NewEmail(s, a, s.workers[a.id].write.value.1.email)
  {
    hide EffectsOk, TokensOk, UniqueEmails, Applied;
    var w := s.workers[a.id];
    assert WorkerOk(s, w) && LocksOperator(w, o);
    forall j | j in s.workers && j != a.id
      ensures !LocksOperator(s.workers[j], o) && (o !in s.operators ==> !Claims(s, s.workers[j], w.write.value.1.email))
    {
      assert Apart(s, a.id, j);
    }
  }

  /** The step commits the transaction that issues this token. */
  ghost predicate Issued(s: State, a: Action, i: nat, x: Token) {
    && a.Next? && a.id in s.workers && s.workers[a.id].pc.Committing?
    && s.workers[a.id].job == Issue(i, x)
  }

  /** One flag of an open row is set, or nothing happens to it. */
  ghost predicate Marked(x: Token, y: Token) {
    y == x || (Open(x) && (y == x.(consumed := true) || y == x.(revoked := true)))
  }

  lemma TokensTouched(s: State, a: Action, i: nat)
    requires Inv(s) && Enabled(s, a)
    ensures var t := Do(s, a);
            && (i in s.tokens ==> i in t.tokens && Marked(s.tokens[i], t.tokens[i]))
            && (i in s.tokens && t.tokens[i] != s.tokens[i] ==> OthersLeaveToken(s, a, i))
            && (i in t.tokens && i !in s.tokens ==> Open(t.tokens[i]) && Issued(s, a, i, t.tokens[i]))
  {
    hide EffectsOk, UniqueEmails, OperatorOk, Step;
    match a
    case Next(id, now) =>
      var w := s.workers[id];
      assert WorkerOk(s, w);
      StepTokens(s, id, now);
      if LocksToken(w, i) {
        forall j | j in s.workers && j != id ensures !LocksToken(s.workers[j], i) {
          assert Apart(s, id, j);
        }
      }
    case _ =>
  }

  lemma StepTokens(s: State, id: nat, now: int)
    requires id in s.workers && CanStep(s, id, now)
    ensures Step(s, id).tokens == if s.workers[id].pc.Committing? then TokensAfter(s.tokens, s.workers[id]) else s.tokens
  {
  }

  /** A worker that does not take the step stays in order. */
  lemma OtherWorkerOk(s: State, a: Action, j: nat)
    requires Inv(s) && Enabled(s, a) && j in s.workers && Actor(a) != Some(j)
    ensures WorkerOk(Do(s, a), s.workers[j])
  {
    hide Do, EffectsOk, TokensOk, UniqueEmails, Applied, CanStep;
    var t, w := Do(s, a), s.workers[j];
    assert WorkerOk(s, w);
    forall i | LocksToken(w, i) ensures i in s.tokens ==> i in t.tokens && t.tokens[i] == s.tokens[i] {
      TokensTouched(s, a, i);
    }
    assert w.taken.Some? ==> LocksToken(w, w.job.used);
    if w.found.Some? {
      OperatorsTouched(s, a, w.found.value);
      assert LocksOperator(w, w.found.value);
    }
    if w.write.Some? {
      OtherWriteOk(s, a, j);
    }
  }

  lemma OtherWriteOk(s: State, a: Action, j: nat)
    requires Inv(s) && Enabled(s, a) && j in s.workers && Actor(a) != Some(j) && s.workers[j].write.Some?
    ensures var (o, row) := s.workers[j].write.value; WriteOk(Do(s, a), s.workers[j], o, row)
  {
    hide Do, EffectsOk, TokensOk, UniqueEmails, Applied, CanStep, RevokesOk, TakenOk;
    var t, w := Do(s, a), s.workers[j];
    var (o, row) := w.write.value;
    assert WorkerOk(s, w) && LocksOperator(w, o);
    OperatorsTouched(s, a, o);
    if o !in s.operators {
      assert Claims(s, w, row.email);
      forall p | p in t.operators ensures t.operators[p].email != row.email {
        OperatorsTouched(s, a, p);
      }
    }
  }

  lemma ActorOk(s: State, a: Action)
    requires Inv(s) && Enabled(s, a) && Actor(a).Some? && a.id in Do(s, a).workers
    ensures WorkerOk(Do(s, a), Do(s, a).workers[a.id])
  {
    hide EffectsOk, TokensOk, UniqueEmails, OperatorFree, TokenFree;
    if a.Next? {
      var w := s.workers[a.id];
      assert WorkerOk(s, w);
      if w.pc.Finding? {
        FoundOk(s, a.id, a.now);
      } else if w.pc.Writing? {
        WrittenOk(s, a.id, a.now);
      }
    }
  }

  lemma FoundOk(s: State, id: nat, now: int)
    requires Inv(s) && id in s.workers && CanStep(s, id, now) && s.workers[id].pc.Finding?
    ensures WorkerOk(Step(s, id), Step(s, id).workers[id])
  {
    hide EffectsOk, TokensOk, UniqueEmails, OperatorFree, TokenFree;
    var w := s.workers[id];
    assert WorkerOk(s, w);
    assert Chosen(s, w).Some? ==> Target(s, w, Chosen(s, w).value);
  }

  lemma WrittenOk(s: State, id: nat, now: int)
    requires Inv(s) && id in s.workers && CanStep(s, id, now) && s.workers[id].pc.Writing?
    ensures WorkerOk(Step(s, id), Step(s, id).workers[id])
  {
    hide EffectsOk, TokensOk, UniqueEmails, OperatorFree, TokenFree;
    var w := s.workers[id];
    assert WorkerOk(s, w);
    assert WriteOk(s, w, Written(s, w).0, Written(s, w).1);
  }

  // ---------------------------------------------------------------- locks stay exclusive

  /** The locks and pending emails of the worker after the step, as far as they are new. */
  lemma NewLocks(s: State, a: Action)
    requires Inv(s) && Enabled(s, a) && Actor(a).Some? && a.id in Do(s, a).workers
    ensures var t, w := Do(s, a), Do(s, a).workers[a.id];
            && (forall i | LocksToken(w, i) ::
                  (a.id in s.workers && LocksToken(s.workers[a.id], i)) || TokenFree(s, Some(a.id), i))
            && (forall o | LocksOperator(w, o) ::
                  (a.id in s.workers && LocksOperator(s.workers[a.id], o)) || OperatorFree(s, Some(a.id), o))
            && (forall e: string | Claims(t, w, e) ::
                  (a.id in s.workers && Claims(s, s.workers[a.id], e)) || EmailFree(s, e))
  {
    hide EffectsOk, TokensOk, UniqueEmails, OperatorFree, TokenFree, EmailFree, WorkerOk;
    if a.Next? {
      StepLocks(s, a.id, a.now);
    }
  }

  lemma StepLocks(s: State, id: nat, now: int)
    requires Inv(s) && id in s.workers && CanStep(s, id, now) && id in Step(s, id).workers
    ensures var t, w := Step(s, id), Step(s, id).workers[id];
            && (forall i | LocksToken(w, i) :: LocksToken(s.workers[id], i) || TokenFree(s, Some(id), i))
            && (forall o | LocksOperator(w, o) :: LocksOperator(s.workers[id], o) || OperatorFree(s, Some(id), o))
            && (forall e: string | Claims(t, w, e) :: Claims(s, s.workers[id], e) || EmailFree(s, e))
  {
    hide EffectsOk, TokensOk, UniqueEmails, OperatorFree, TokenFree, EmailFree;
    var w := s.workers[id];
    assert WorkerOk(s, w);
    match w.pc
    case Finding =>
      assert Chosen(s, w).Some? ==> Target(s, w, Chosen(s, w).value);
    case Writing =>
      WriteLocks(s, id, now);
    case _ =>
  }

  lemma WriteLocks(s: State, id: nat, now: int)
    requires Inv(s) && id in s.workers && CanStep(s, id, now) && s.workers[id].pc.Writing?
    ensures var (o, row) := Written(s, s.workers[id]);
            && (LocksOperator(s.workers[id], o) || OperatorFree(s, Some(id), o))
            && (o !in s.operators ==> EmailFree(s, row.email))
  {
    var w := s.workers[id];
    assert WorkerOk(s, w);
  }

  lemma ClaimsShrink(s: State, a: Action, j: nat, e: string)
    requires Inv(s) && Enabled(s, a) && j in s.workers && Actor(a) != Some(j) && Claims(Do(s, a), s.workers[j], e)
    ensures Claims(s, s.workers[j], e)
  {
    hide Do, CanStep, EffectsOk, TokensOk, UniqueEmails, WorkerOk;
    OperatorsTouched(s, a, s.workers[j].write.value.0);
  }

  lemma ActorApart(s: State, a: Action, j: nat)
    requires Inv(s) && Enabled(s, a) && Actor(a).Some? && a.id in Do(s, a).workers && j in s.workers && j != a.id
    requires j in Do(s, a).workers && Do(s, a).workers[j] == s.workers[j]
    ensures Apart(Do(s, a), a.id, j) && Apart(Do(s, a), j, a.id)
  {
    hide Do, CanStep, EffectsOk, TokensOk, UniqueEmails, WorkerOk;
    NewLocks(s, a);
    assert a.id in s.workers ==> Apart(s, a.id, j);
    forall e: string | Claims(Do(s, a), s.workers[j], e) ensures Claims(s, s.workers[j], e) {
      ClaimsShrink(s, a, j, e);
    }
  }

  lemma ApartAfter(s: State, a: Action, i: nat, j: nat)
    requires Inv(s) && Enabled(s, a) && i in Do(s, a).workers && j in Do(s, a).workers && i != j
    ensures Apart(Do(s, a), i, j)
  {
    hide Do, CanStep, EffectsOk, TokensOk, UniqueEmails, WorkerOk, LocksToken, LocksOperator, Claims;
    if Actor(a) != Some(i) {
      OtherWorkersStay(s, a, i);
    }
    if Actor(a) != Some(j) {
      OtherWorkersStay(s, a, j);
    }
    if Actor(a) == Some(i) {
      ActorApart(s, a, j);
    } else if Actor(a) == Some(j) {
      ActorApart(s, a, i);
    } else {
      assert Apart(s, i, j);
      forall e: string ensures Claims(Do(s, a), s.workers[i], e) ==> Claims(s, s.workers[i], e) {
        if Claims(Do(s, a), s.workers[i], e) {
          ClaimsShrink(s, a, i, e);
        }
      }
      forall e: string ensures Claims(Do(s, a), s.workers[j], e) ==> Claims(s, s.workers[j], e) {
        if Claims(Do(s, a), s.workers[j], e) {
          ClaimsShrink(s, a, j, e);
        }
      }
    }
  }

  // ---------------------------------------------------------------- the tables stay in order

  lemma EmailsStayUnique(s: State, a: Action)
    requires Inv(s) && Enabled(s, a)
    ensures UniqueEmails(Do(s, a))
  {
    hide Do, CanStep, EffectsOk, TokensOk, WorkerOk;
    var t := Do(s, a);
    forall o, p | o in t.operators && p in t.operators && t.operators[o].email == t.operators[p].email ensures o == p {
      OperatorsTouched(s, a, o);
      OperatorsTouched(s, a, p);
      if o !in s.operators && p !in s.operators {
        OneInsert(s, a, o, p);
      }
    }
  }

  lemma OneInsert(s: State, a: Action, o: nat, p: nat)
    requires Enabled(s, a) && o in Do(s, a).operators && p in Do(s, a).operators && o !in s.operators && p !in s.operators
    ensures o == p
  {
  }

  lemma TokensStayOk(s: State, a: Action)
    requires Inv(s) && Enabled(s, a)
    ensures TokensOk(Do(s, a))
  {
    hide Do, CanStep, EffectsOk, UniqueEmails, WorkerOk;
    forall i | i in Do(s, a).tokens ensures !(Do(s, a).tokens[i].consumed && Do(s, a).tokens[i].revoked) {
      TokensTouched(s, a, i);
    }
  }

  predicate CommitsUse(s: State, a: Action) {
    a.Next? && a.id in s.workers && s.workers[a.id].pc.Committing? && Uses(s.workers[a.id].job)
  }

  /** A token becomes consumed in the step that records its use, and in no other. */
  lemma ConsumedWithEffect(s: State, a: Action)
    requires Inv(s) && Enabled(s, a)
    ensures var t := Do(s, a);
            if CommitsUse(s, a) then
              var w := s.workers[a.id];
              && w.job.used in s.tokens && Open(s.tokens[w.job.used]) && w.write.Some?
              && t.tokens == s.tokens[w.job.used := s.tokens[w.job.used].(consumed := true)]
              && t.effects == s.effects + [Effect(w.job.used, PurposeOf(w.job), w.write.value.0)]
            else t.effects == s.effects && forall i | i in t.tokens && t.tokens[i].consumed ::
                                             i in s.tokens && s.tokens[i].consumed
  {
    hide EffectsOk, UniqueEmails, TokenFree, OperatorFree, EmailFree, Step;
    if a.Next? {
      assert WorkerOk(s, s.workers[a.id]);
      StepEffects(s, a.id, a.now);
      StepTokens(s, a.id, a.now);
    }
  }

  lemma StepEffects(s: State, id: nat, now: int)
    requires id in s.workers && CanStep(s, id, now)
    ensures var w := s.workers[id];
            Step(s, id).effects == s.effects +
              if w.pc.Committing? && Uses(w.job) && w.write.Some? then [Effect(w.job.used, PurposeOf(w.job), w.write.value.0)] else []
  {
  }

  lemma EffectsStayOk(s: State, a: Action)
    requires Inv(s) && Enabled(s, a)
    ensures EffectsOk(Do(s, a))
  {
    hide Do, CanStep, UniqueEmails, WorkerOk, TokenFree, OperatorFree;
    var t := Do(s, a);
    ConsumedWithEffect(s, a);
    forall p | 0 <= p < |t.effects|
      ensures var e := t.effects[p];
              e.token in t.tokens && t.tokens[e.token].consumed && t.tokens[e.token].purpose == e.purpose
    {
      TokensTouched(s, a, t.effects[p].token);
      UsedPurpose(s, a);
    }
    forall i | i in t.tokens && t.tokens[i].consumed ensures HasEffect(t, i) {
      if i in s.tokens && s.tokens[i].consumed {
        assert HasEffect(s, i);
        var p :| 0 <= p < |s.effects| && s.effects[p].token == i;
        assert t.effects[p].token == i;
      } else {
        assert t.effects[|s.effects|].token == i;
      }
    }
  }

  lemma UsedPurpose(s: State, a: Action)
    requires Inv(s) && Enabled(s, a)
    ensures CommitsUse(s, a) ==> var job := s.workers[a.id].job; job.used in s.tokens && s.tokens[job.used].purpose == PurposeOf(job)
  {
    hide Do, CanStep, UniqueEmails, EffectsOk;
    assert CommitsUse(s, a) ==> WorkerOk(s, s.workers[a.id]);
  }

  lemma DoKeepsInv(s: State, a: Action)
    requires Inv(s) && Enabled(s, a)
    ensures Inv(Do(s, a))
  {
    hide Do, CanStep, UniqueEmails, EffectsOk, TokensOk, WorkerOk, Apart;
    var t := Do(s, a);
    EmailsStayUnique(s, a);
    TokensStayOk(s, a);
    EffectsStayOk(s, a);
    forall i | i in t.workers ensures WorkerOk(t, t.workers[i]) {
      if Actor(a) == Some(i) {
        ActorOk(s, a);
      } else {
        OtherWorkersStay(s, a, i);
        OtherWorkerOk(s, a, i);
      }
    }
    forall i, j | i in t.workers && j in t.workers && i != j ensures Apart(t, i, j) {
      ApartAfter(s, a, i, j);
    }
  }

  lemma {:induction false} RunKeepsInv(s: State, acts: seq<Action>)
    requires Fresh(s) && CanRun(s, acts)
    ensures Inv(Run(s, acts))
  {
    if acts != [] {
      RunKeepsInv(s, acts[..|acts| - 1]);
      DoKeepsInv(Run(s, acts[..|acts| - 1]), acts[|acts| - 1]);
    }
  }
}
