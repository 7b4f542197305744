/** What holds of every run of the account lifecycle. */
module TokenResults {
  import opened Prelude
  import opened Tokens

  // ---------------------------------------------------------------- consumed, revoked, used

  /** Under every interleaving no token is both consumed and revoked, and each consumed token has exactly one committed use. */
  lemma ConsumedExactlyOnce(s: State, acts: seq<Action>, t: nat)
    requires Fresh(s) && CanRun(s, acts) && t in Run(s, acts).tokens
    ensures var x, effects := Run(s, acts).tokens[t], Run(s, acts).effects;
            && !(x.consumed && x.revoked)
            && (x.consumed <==> exists p :: 0 <= p < |effects| && effects[p].token == t)
            && (forall p, q | 0 <= p < |effects| && 0 <= q < |effects| && effects[p].token == t == effects[q].token ::
                  p == q)
            && (forall p | 0 <= p < |effects| && effects[p].token == t :: effects[p].purpose == x.purpose)
  {
    RunKeepsInv(s, acts);
    var u := Run(s, acts);
    assert u.tokens[t].consumed ==> HasEffect(u, t);
  }

  /** The commit that consumes a token writes the operator row the token is for, as its purpose demands. */
  lemma UseTakesEffect(s: State, a: Action)
    requires Inv(s) && Enabled(s, a) && CommitsUse(s, a)
    ensures var t, w := Do(s, a), s.workers[a.id];
            && w.job.used in s.tokens && w.write.Some? && w.taken == Some(s.tokens[w.job.used])
            && t.tokens[w.job.used] == s.tokens[w.job.used].(consumed := true)
            && t.effects == s.effects + [Effect(w.job.used, PurposeOf(w.job), w.write.value.0)]
            && t.operators == s.operators[w.write.value.0 := w.write.value.1]
            && Applied(w, w.write.value.1)
  {
    hide EffectsOk, UniqueEmails, TokenFree, OperatorFree, EmailFree;
    ConsumedWithEffect(s, a);
    assert WorkerOk(s, s.workers[a.id]);
  }

  // ---------------------------------------------------------------- statuses

  datatype Status = Accepted | Revoked | Expired | Pending

  /** The CASE of listInvitationStatuses. */
  function StatusOf(t: Token, now: int): Status {
    if t.consumed then Accepted else if t.revoked then Revoked else if t.expires <= now then Expired else Pending
  }

  lemma StepStatus(s: State, a: Action, t: nat)
    requires Inv(s) && Enabled(s, a) && t in s.tokens
    ensures t in Do(s, a).tokens && Do(s, a).tokens[t].expires == s.tokens[t].expires
    ensures !Open(s.tokens[t]) ==> Do(s, a).tokens[t] == s.tokens[t]
  {
    hide Do, Enabled, Inv;
    TokensTouched(s, a, t);
  }

  /**
   Accepted and revoked are final, whatever runs next and whatever the clock reads. An open token only ever becomes
   accepted, revoked or, as time passes, expired.
   */
  lemma {:induction false} StatusIsFinal(s: State, acts: seq<Action>, n: nat, t: nat, now: int, later: int)
    requires Fresh(s) && CanRun(s, acts) && n <= |acts| && CanRun(s, acts[..n]) && t in Run(s, acts[..n]).tokens && now <= later
    ensures t in Run(s, acts).tokens
    ensures var before, after := StatusOf(Run(s, acts[..n]).tokens[t], now), StatusOf(Run(s, acts).tokens[t], later);
            && (before.Accepted? || before.Revoked? ==>
                  after == before && Run(s, acts).tokens[t] == Run(s, acts[..n]).tokens[t])
            && (before.Expired? ==> !after.Pending?)
  {
    hide Do, Inv;
    if n == |acts| {
      assert acts[..n] == acts;
    } else {
      var before := acts[..|acts| - 1];
      assert before[..n] == acts[..n];
      StatusIsFinal(s, before, n, t, now, later);
      RunKeepsInv(s, before);
      StepStatus(Run(s, before), acts[|acts| - 1], t);
    }
  }

  // ---------------------------------------------------------------- expiry

  /** The step consumes the token for its transaction, while it is pending. */
  ghost predicate Takes(s: State, a: Action, t: nat) {
    && a.Next? && a.id in s.workers && s.workers[a.id].pc.Consuming? && Uses(s.workers[a.id].job)
    && s.workers[a.id].job.used == t && t in s.tokens && StatusOf(s.tokens[t], a.now).Pending?
    && s.tokens[t].purpose == PurposeOf(s.workers[a.id].job)
  }

  /** The transaction holds the token that it has consumed and is to use. */
  predicate Holds(w: Worker, t: nat) { w.taken.Some? && Uses(w.job) && w.job.used == t }

  lemma HeldSince(s: State, a: Action, j: nat, t: nat)
    requires Enabled(s, a) && j in Do(s, a).workers && Holds(Do(s, a).workers[j], t)
    ensures (j in s.workers && Holds(s.workers[j], t)) || (a.Next? && a.id == j && Takes(s, a, t))
  {
    hide TokenFree, OperatorFree, EmailFree, Target, Written, Chosen;
    if Actor(a) != Some(j) {
      OtherWorkersStay(s, a, j);
    }
  }

  /** A transaction that holds a token has consumed it in an earlier step, which found it pending. */
  lemma {:induction false} HeldWasPending(s: State, acts: seq<Action>, j: nat, t: nat) returns (n: nat)
    requires Fresh(s) && CanRun(s, acts) && j in Run(s, acts).workers && Holds(Run(s, acts).workers[j], t)
    ensures n < |acts| && CanRun(s, acts[..n]) && acts[n].Next? && acts[n].id == j && Takes(Run(s, acts[..n]), acts[n], t)
  {
    hide Do, Enabled, Takes;
    var before := acts[..|acts| - 1];
    HeldSince(Run(s, before), acts[|acts| - 1], j, t);
    if j in Run(s, before).workers && Holds(Run(s, before).workers[j], t) {
      n := HeldWasPending(s, before, j, t);
      assert before[..n] == acts[..n];
    } else {
      n := |acts| - 1;
    }
  }

  /** Every use of a token goes back to a step that found the token pending: open, of its purpose and not yet expired. */
  lemma {:induction false} UsedBeforeExpiry(s: State, acts: seq<Action>, p: nat) returns (n: nat)
    requires Fresh(s) && CanRun(s, acts) && p < |Run(s, acts).effects|
    ensures n < |acts| && CanRun(s, acts[..n]) && Takes(Run(s, acts[..n]), acts[n], Run(s, acts).effects[p].token)
  {
    hide Do, Enabled, Takes, Inv;
    var before, a := acts[..|acts| - 1], acts[|acts| - 1];
    RunKeepsInv(s, before);
    ConsumedWithEffect(Run(s, before), a);
    if p < |Run(s, before).effects| {
      n := UsedBeforeExpiry(s, before, p);
    } else {
      CommitterHolds(Run(s, before), a);
      n := HeldWasPending(s, before, a.id, Run(s, acts).effects[p].token);
    }
    assert before[..n] == acts[..n];
  }

  lemma CommitterHolds(s: State, a: Action)
    requires Inv(s) && CommitsUse(s, a)
    ensures Holds(s.workers[a.id], s.workers[a.id].job.used)
  {
    assert WorkerOk(s, s.workers[a.id]);
  }

  /** The token has run out, and nobody took it in time. */
  ghost predicate RunOut(s: State, t: nat, now: int) {
    t in s.tokens && s.tokens[t].expires <= now && !s.tokens[t].consumed && forall j | j in s.workers :: !Holds(s.workers[j], t)
  }

  lemma RunOutStays(s: State, a: Action, t: nat, now: int)
    requires Inv(s) && Enabled(s, a) && RunOut(s, t, now) && (a.Next? ==> now <= a.now)
    ensures RunOut(Do(s, a), t, now)
  {
    hide Do, Enabled, Inv;
    StepStatus(s, a, t);
    ConsumedWithEffect(s, a);
    if CommitsUse(s, a) {
      CommitterHolds(s, a);
    }
    forall j | j in Do(s, a).workers ensures !Holds(Do(s, a).workers[j], t) {
      if Holds(Do(s, a).workers[j], t) {
        HeldSince(s, a, j, t);
      }
    }
  }

  /**
   If the clock does not go back, a token that has expired, and that no transaction in progress has already consumed, is
   never accepted in any continuation.
   */
  lemma {:induction false} ExpiredIsNeverUsed(s: State, acts: seq<Action>, n: nat, t: nat, now: int)
    requires Fresh(s) && CanRun(s, acts) && n <= |acts| && CanRun(s, acts[..n]) && RunOut(Run(s, acts[..n]), t, now)
    requires forall m | n <= m < |acts| && acts[m].Next? :: now <= acts[m].now
    ensures t in Run(s, acts).tokens
    ensures StatusOf(Run(s, acts).tokens[t], now).Expired? || StatusOf(Run(s, acts).tokens[t], now).Revoked?
    ensures RunOut(Run(s, acts), t, now)
  {
    hide Do, Enabled, Inv;
    if n == |acts| {
      assert acts[..n] == acts;
    } else {
      var before := acts[..|acts| - 1];
      assert before[..n] == acts[..n];
      ExpiredIsNeverUsed(s, before, n, t, now);
      RunKeepsInv(s, before);
      RunOutStays(Run(s, before), acts[|acts| - 1], t, now);
    }
  }

  /** Revoking an invitation takes effect exactly if it is pending and of that organisation and tenant, and on no other token. */
  lemma RevokesPendingOnly(s: State, a: Action, t: nat)
    requires a.RevokeInvitation? && Enabled(s, a) && t in s.tokens
    ensures t in Do(s, a).tokens && Do(s, a) == s.(tokens := Do(s, a).tokens) && Do(s, a).tokens.Keys == s.tokens.Keys
    ensures var x, y := s.tokens[t], Do(s, a).tokens[t];
            && (StatusOf(y, a.now).Revoked? && !StatusOf(x, a.now).Revoked? <==>
                  && t == a.token && x.purpose.Invitation? && StatusOf(x, a.now).Pending?
                  && x.organization == Some(a.organization) && x.tenant == Some(a.tenant))
            && (y == x || y == x.(revoked := true))
  {
  }

  // ---------------------------------------------------------------- tenants

  /** An operator's tenant never changes once it is set. */
  lemma {:induction false} TenantSticks(s: State, acts: seq<Action>, n: nat, o: nat)
    requires Fresh(s) && CanRun(s, acts) && n <= |acts| && CanRun(s, acts[..n])
    requires o in Run(s, acts[..n]).operators && Given(Run(s, acts[..n]).operators[o].tenant)
    ensures o in Run(s, acts).operators && Run(s, acts).operators[o].tenant == Run(s, acts[..n]).operators[o].tenant
  {
    hide Do, Inv;
    if n == |acts| {
      assert acts[..n] == acts;
    } else {
      var before := acts[..|acts| - 1];
      assert before[..n] == acts[..n];
      TenantSticks(s, before, n, o);
      RunKeepsInv(s, before);
      OperatorsTouched(Run(s, before), acts[|acts| - 1], o);
    }
  }

  /**
   Signing up with an email that an operator has, or being vouched for from outside, never makes a second operator and
   changes no other one: a sign-up resets the password of an operator that is not verified, and that one is not active
   until it is; the other gives an operator without a tenant the one that is claimed.
   */
  lemma UpsertsAreCautious(s: State, a: Action, o: nat)
    requires Inv(s) && Enabled(s, a) && (a.Signup? || a.EnsureExternal?) && HasEmail(s, o, a.email)
    ensures var x := s.operators[o];
            Do(s, a) == s.(operators := s.operators[o :=
              if a.Signup? then (if x.verified then x else x.(password := a.password, active := false))
              else if x.tenant.None? then x.(tenant := a.claimed) else x])
  {
    hide EffectsOk, TokensOk, WorkerOk, Apart;
  }

  /** An email that no operator has gets one new operator, neither verified nor active; who signs up becomes an admin. */
  lemma UpsertsOfNewEmails(s: State, a: Action)
    requires Enabled(s, a) && (a.Signup? || a.EnsureExternal?) && forall o :: !HasEmail(s, o, a.email)
    ensures a.newOperator !in s.operators
    ensures Do(s, a) == s.(operators := s.operators[a.newOperator :=
              if a.Signup? then Operator(a.email, None, "admin", false, false, a.password)
              else Operator(a.email, a.claimed, "operator", false, false, 0)])
  {
  }

  // ---------------------------------------------------------------- at most one live token

  predicate SamePair(t: Token, u: Token) { t.purpose == u.purpose && t.email == u.email }

  /** Nobody is in the middle of issuing a token for the same purpose and email. */
  ghost predicate Unrivalled(s: State, a: Action) {
    a.Begin? && a.job.Issue? ==>
      forall j | j in s.workers && s.workers[j].job.Issue? :: !SamePair(s.workers[j].job.token, a.job.token)
  }

  ghost predicate IssuesDoNotOverlap(s: State, acts: seq<Action>)
    requires CanRun(s, acts)
  {
    acts != [] ==> IssuesDoNotOverlap(s, acts[..|acts| - 1]) && Unrivalled(Run(s, acts[..|acts| - 1]), acts[|acts| - 1])
  }

  ghost predicate OneOpen(s: State) {
    forall t, u | t in s.tokens && u in s.tokens && Open(s.tokens[t]) && Open(s.tokens[u]) && SamePair(s.tokens[t], s.tokens[u]) ::
      t == u
  }

  ghost predicate OneIssuer(s: State) {
    forall i, j | i in s.workers && j in s.workers && s.workers[i].job.Issue? && s.workers[j].job.Issue? &&
                  SamePair(s.workers[i].job.token, s.workers[j].job.token) :: i == j
  }

  /** A transaction that is past its UPDATE will revoke every open token of its pair. */
  ghost predicate Gathered(s: State, w: Worker) {
    w.job.Issue? && !w.pc.Revoking? ==>
      forall t | t in s.tokens && Open(s.tokens[t]) && SamePair(s.tokens[t], w.job.token) :: t in w.revokes
  }

  ghost predicate Tidy(s: State) {
    OneOpen(s) && OneIssuer(s) && forall i {:trigger Gathered(s, s.workers[i])} | i in s.workers ::
                                    Gathered(s, s.workers[i])
  }

  lemma OneIssuerStays(s: State, a: Action)
    requires Inv(s) && Tidy(s) && Enabled(s, a) && Unrivalled(s, a)
    ensures OneIssuer(Do(s, a))
  {
    hide Inv, OneOpen, Gathered;
    JobsKept(s, a);
  }

  lemma JobsKept(s: State, a: Action)
    requires Enabled(s, a)
    ensures forall j | j in Do(s, a).workers ::
              if a.Begin? && j == a.id then Do(s, a).workers[j].job == a.job
              else j in s.workers && Do(s, a).workers[j].job == s.workers[j].job
  {
  }

  predicate CommitsIssue(s: State, a: Action) {
    a.Next? && a.id in s.workers && s.workers[a.id].pc.Committing? && s.workers[a.id].job.Issue?
  }

  /**
   Whatever else runs, the commit of an issue leaves open, of its purpose and email, its own token and those open
   tokens that its UPDATE did not gather; so there is a second one exactly if it missed one.
   */
  lemma IssueLeavesOpen(s: State, a: Action)
    requires Inv(s) && Enabled(s, a) && CommitsIssue(s, a)
    ensures var w, token := s.workers[a.id], s.workers[a.id].job.token;
            && w.job.newToken !in s.tokens
            && Superseded(Do(s, a), token) == {w.job.newToken} + (Superseded(s, token) - w.revokes)
            && (Superseded(Do(s, a), token) == {w.job.newToken} <==> Superseded(s, token) <= w.revokes)
  {
    hide EffectsOk, UniqueEmails, TokenFree, OperatorFree, EmailFree;
    var w := s.workers[a.id];
    assert WorkerOk(s, w);
    StepTokens(s, a.id, a.now);
    forall t | t in Superseded(s, w.job.token) ensures t in Superseded(Do(s, a), w.job.token) <==> t !in w.revokes {
    }
  }

  /** After a commit of an issue that gathered all, an open token of its pair is its own. */
  lemma CommitIssue(s: State, a: Action, t: nat)
    requires Inv(s) && Tidy(s) && Enabled(s, a) && CommitsIssue(s, a)
    requires t in Do(s, a).tokens && Open(Do(s, a).tokens[t]) && SamePair(Do(s, a).tokens[t], s.workers[a.id].job.token)
    ensures t == s.workers[a.id].job.newToken
  {
    hide Do, Enabled, Inv, OneOpen, OneIssuer;
    assert Gathered(s, s.workers[a.id]);
    IssueLeavesOpen(s, a);
    assert t in Superseded(Do(s, a), s.workers[a.id].job.token);
  }

  /** The token did not exist before the step, which commits its issue. */
  lemma OneOpenStays(s: State, a: Action)
    requires Inv(s) && Tidy(s) && Enabled(s, a)
    ensures OneOpen(Do(s, a))
  {
    hide Do, Inv, Enabled, OneIssuer, Gathered, TokenFree, OperatorFree;
    var r := Do(s, a);
    forall t, u | t in r.tokens && u in r.tokens && Open(r.tokens[t]) && Open(r.tokens[u]) && SamePair(r.tokens[t], r.tokens[u])
      ensures t == u
    {
      TokensTouched(s, a, t);
      TokensTouched(s, a, u);
      if t !in s.tokens || u !in s.tokens {
        CommitIssue(s, a, t);
        CommitIssue(s, a, u);
      }
    }
  }

  lemma GatheredStays(s: State, a: Action, j: nat)
    requires Inv(s) && Tidy(s) && Enabled(s, a) && j in s.workers && Actor(a) != Some(j)
    ensures Gathered(Do(s, a), s.workers[j])
  {
    hide Do, Inv, Enabled, OneOpen, TokenFree, OperatorFree;
    var r, w := Do(s, a), s.workers[j];
    assert Gathered(s, w);
    if w.job.Issue? && !w.pc.Revoking? {
      forall t | t in r.tokens && Open(r.tokens[t]) && SamePair(r.tokens[t], w.job.token) ensures t in w.revokes {
        TokensTouched(s, a, t);
      }
    }
  }

  lemma ActorGathered(s: State, a: Action)
    requires Inv(s) && Tidy(s) && Enabled(s, a) && Actor(a).Some? && a.id in Do(s, a).workers
    ensures Gathered(Do(s, a), Do(s, a).workers[a.id])
  {
    hide EffectsOk, UniqueEmails, TokenFree, OperatorFree, EmailFree, OneOpen, OneIssuer;
    if a.Next? {
      assert WorkerOk(s, s.workers[a.id]) && Gathered(s, s.workers[a.id]);
    }
  }

  lemma DoKeepsTidy(s: State, a: Action)
    requires Inv(s) && Tidy(s) && Enabled(s, a) && Unrivalled(s, a)
    ensures Tidy(Do(s, a))
  {
    hide Do, Inv, Enabled, OneOpen, OneIssuer, Gathered;
    OneOpenStays(s, a);
    OneIssuerStays(s, a);
    var r := Do(s, a);
    forall i | i in r.workers ensures Gathered(r, r.workers[i]) {
      if Actor(a) == Some(i) {
        ActorGathered(s, a);
      } else {
        OtherWorkersStay(s, a, i);
        GatheredStays(s, a, i);
      }
    }
  }

  /** When the transactions that issue tokens do not overlap, there is at most one open token per purpose and email. */
  lemma {:induction false} AtMostOneOpen(s: State, acts: seq<Action>)
    requires Fresh(s) && OneOpen(s) && CanRun(s, acts) && IssuesDoNotOverlap(s, acts)
    ensures Tidy(Run(s, acts))
  {
    hide Do, Inv, OneOpen;
    if acts != [] {
      AtMostOneOpen(s, acts[..|acts| - 1]);
      RunKeepsInv(s, acts[..|acts| - 1]);
      DoKeepsTidy(Run(s, acts[..|acts| - 1]), acts[|acts| - 1]);
    }
  }

  // ---------------------------------------------------------------- where the conditions are needed

  lemma {:induction false} RunAppend(s: State, acts: seq<Action>, a: Action)
    requires CanRun(s, acts) && Enabled(Run(s, acts), a)
    ensures CanRun(s, acts + [a]) && Run(s, acts + [a]) == Do(Run(s, acts), a)
  {
    assert (acts + [a])[..|acts|] == acts;
  }

  function Nothing(): State { State(map[], map[], [], map[]) }

  function Issuing(token: Token, pc: Pc, id: nat): Worker { Worker(Issue(id, token), pc, {}, None, None, None) }

  /** Two issues that overlap each supersede nothing, and leave two open tokens for the same purpose and email. */
  lemma OverlappingIssues(token: Token) returns (acts: seq<Action>)
    requires Open(token)
    ensures Fresh(Nothing()) && CanRun(Nothing(), acts)
    ensures Run(Nothing(), acts).tokens == map[1 := token, 2 := token]
  {
    hide CanRun, Run, Do, Enabled;
    var s := Nothing();
    var w1, w2 := Issuing(token, Revoking, 1), Issuing(token, Revoking, 2);
    acts := [];
    Empty(s);
    BeginIssue(s, 1, token);
    RunAppend(s, acts, Begin(1, w1.job));
    acts := acts + [Begin(1, w1.job)];
    BeginIssue(Run(s, acts), 2, token);
    RunAppend(s, acts, Begin(2, w2.job));
    acts := acts + [Begin(2, w2.job)];
    acts := Forward(s, acts, 1, w1, map[]);
    acts := Forward(s, acts, 2, w2, map[]);
    acts := Forward(s, acts, 1, w1.(pc := Inserting), map[]);
    acts := Forward(s, acts, 2, w2.(pc := Inserting), map[]);
    acts := Forward(s, acts, 1, w1.(pc := Committing), map[]);
    acts := Forward(s, acts, 2, w2.(pc := Committing), map[1 := token]);
  }

  lemma Empty(s: State)
    ensures CanRun(s, []) && Run(s, []) == s
  {
  }

  lemma BeginIssue(s: State, id: nat, token: Token)
    requires id !in s.workers && Open(token)
    ensures Enabled(s, Begin(id, Issue(id, token)))
    ensures Do(s, Begin(id, Issue(id, token))) == PutWorker(s, id, Issuing(token, Revoking, id))
  {
  }

  /** The next statement of an issue that has nothing to supersede. */
  lemma Forward(s: State, acts: seq<Action>, id: nat, w: Worker, tokens: map<nat, Token>) returns (acts': seq<Action>)
    requires CanRun(s, acts) && id in Run(s, acts).workers && Run(s, acts).workers[id] == w
    requires w.job.Issue? && w == Issuing(w.job.token, w.pc, id) && (w.pc.Revoking? || w.pc.Inserting? || w.pc.Committing?)
    requires Run(s, acts).tokens == tokens && id !in tokens && (w.pc.Revoking? ==> tokens == map[])
    ensures acts' == acts + [Next(id, 0)] && CanRun(s, acts')
    ensures var before, after := Run(s, acts), Run(s, acts');
            && after.workers == (if w.pc.Committing? then before.workers - {id}
                                 else before.workers[id := w.(pc := if w.pc.Revoking? then Inserting else Committing)])
            && after.tokens == if w.pc.Committing? then tokens[id := w.job.token] else tokens
  {
    var before := Run(s, acts);
    assert w.pc.Revoking? ==> Superseded(before, w.job.token) == {};
    assert Enabled(before, Next(id, 0));
    assert w.pc.Committing? ==> TokensAfter(tokens, w) == tokens[id := w.job.token];
    RunAppend(s, acts, Next(id, 0));
    acts' := acts + [Next(id, 0)];
  }

  /** An empty tenant is not protected: the code tests the text, not its absence. */
  lemma EmptyTenantIsReplaced(email: string, tenant: string) returns (acts: seq<Action>)
    requires tenant != ""
    ensures Fresh(Nothing()) && CanRun(Nothing(), acts) && |acts| == 6 && CanRun(Nothing(), acts[..2])
    ensures 7 in Run(Nothing(), acts[..2]).operators && Run(Nothing(), acts[..2]).operators[7].tenant == Some("")
    ensures 7 in Run(Nothing(), acts).operators && Run(Nothing(), acts).operators[7].tenant == Some(tenant)
  {
    hide CanRun, Run;
    var s := Nothing();
    var a, b, c := EnsureExternal(7, email, Some("")), Approve(7), Begin(1, Found(7, tenant));
    var none: seq<Action> := [];
    Empty(s);
    RunAppend(s, none, a);
    var h1 := none + [a];
    var row := Operator(email, Some(""), "operator", false, false, 0);
    assert forall o :: !HasEmail(s, o, email);
    assert Run(s, h1) == s.(operators := map[7 := row]);
    RunAppend(s, h1, b);
    var h2 := h1 + [b];
    row := row.(active := true, verified := true);
    assert Run(s, h2) == s.(operators := map[7 := row]);
    RunAppend(s, h2, c);
    var h3 := h2 + [c];
    acts := FoundTenant(s, h3, row, tenant);
    assert acts[..2] == h2;
  }

  lemma FoundTenant(s: State, h: seq<Action>, row: Operator, tenant: string) returns (acts: seq<Action>)
    requires CanRun(s, h) && tenant != "" && row.verified && row.active && !Given(row.tenant)
    requires var w := Worker(Found(7, tenant), Finding, {}, None, None, None);
             Run(s, h) == State(map[], map[7 := row], [], map[1 := w])
    ensures acts == h + [Next(1, 0), Next(1, 0), Next(1, 0)] && CanRun(s, acts)
    ensures Run(s, acts).operators == map[7 := row.(tenant := Some(tenant))]
  {
    hide CanRun, Run;
    var w := Worker(Found(7, tenant), Finding, {}, None, None, None);
    var n := Next(1, 0);
    assert Target(Run(s, h), w, 7) && Chosen(Run(s, h), w) == Some(7);
    RunAppend(s, h, n);
    var w1 := w.(pc := Writing, found := Some(7));
    assert Run(s, h + [n]) == State(map[], map[7 := row], [], map[1 := w1]);
    RunAppend(s, h + [n], n);
    var w2 := w1.(pc := Committing, write := Some((7, row.(tenant := Some(tenant)))));
    assert Run(s, h + [n] + [n]) == State(map[], map[7 := row], [], map[1 := w2]);
    RunAppend(s, h + [n] + [n], n);
    acts := h + [n] + [n] + [n];
  }
}
