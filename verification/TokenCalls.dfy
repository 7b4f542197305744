/** What a call of the account store achieves when no other transaction is in progress, and exactly when it can. */
module TokenCalls {
  import opened Prelude
  import opened Tokens
  import opened TokenResults

  /** The statements of a call, all of them at one reading of the clock. */
  function Call(i: nat, job: Job, now: int): seq<Action> {
    [Begin(i, job), Next(i, now), Next(i, now), Next(i, now)] + if job.Accept? then [Next(i, now)] else []
  }

  predicate Names(text: Option<string>) { text.Some? && |text.value| > 0 }

  /** The token is pending, of the purpose of the job, and its row has what the job needs. */
  predicate Redeemable(s: State, job: Job, now: int)
    requires Uses(job)
  {
    job.used in s.tokens &&
    var t := s.tokens[job.used];
    t.purpose == PurposeOf(job) && StatusOf(t, now).Pending? &&
    if job.Accept? then Names(t.tenant) && Names(t.organization) && Names(t.role)
    else t.operator.Some? && t.operator.value != 0
  }

  /** What a call demands. */
  ghost predicate Possible(s: State, job: Job, now: int) {
    match job
    case Issue(newToken, token) => Open(token) && newToken !in s.tokens
    case Verify(used) =>
      Redeemable(s, job, now) && HasEmail(s, s.tokens[used].operator.value, s.tokens[used].email)
    case Reset(used, _) =>
      Redeemable(s, job, now) && HasEmail(s, s.tokens[used].operator.value, s.tokens[used].email)
    case Accept(used, _, newOperator) =>
      && Redeemable(s, job, now)
      && (forall o | HasEmail(s, o, s.tokens[used].email) ::
            Given(s.operators[o].tenant) ==> s.operators[o].tenant == s.tokens[used].tenant)
      && ((exists o :: HasEmail(s, o, s.tokens[used].email)) || newOperator !in s.operators)
    case Found(founder, newTenant) =>
      && founder in s.operators && s.operators[founder].verified && s.operators[founder].active
      && !Given(s.operators[founder].tenant) && newTenant != ""
  }

  /** What a call leaves behind: one operator row written, and its token consumed or its pair's other tokens revoked. */
  ghost predicate Achieved(s: State, u: State, job: Job, now: int)
    requires Possible(s, job, now)
  {
    match job
    case Issue(newToken, token) =>
      && u.operators == s.operators && u.effects == s.effects && u.tokens.Keys == s.tokens.Keys + {newToken}
      && u.tokens[newToken] == token
      && forall t | t in s.tokens :: u.tokens[t] ==
           if s.tokens[t].purpose == token.purpose && s.tokens[t].email == token.email && Open(s.tokens[t])
           then s.tokens[t].(revoked := true) else s.tokens[t]
    case Verify(used) =>
      var o := s.tokens[used].operator.value;
      Consumed(s, u, job, o, s.operators[o].(verified := true, active := true))
    case Reset(used, password) =>
      var o := s.tokens[used].operator.value;
      Consumed(s, u, job, o, s.operators[o].(password := password))
    case Accept(used, password, newOperator) =>
      var t := s.tokens[used];
      && (forall o | HasEmail(s, o, t.email) ::
            Consumed(s, u, job, o, s.operators[o].(role := t.role.value, tenant := t.tenant, password := password,
                                                   active := true, verified := true)))
      && ((forall o :: !HasEmail(s, o, t.email)) ==>
            Consumed(s, u, job, newOperator, Operator(t.email, t.tenant, t.role.value, true, true, password)))
    case Found(founder, newTenant) =>
      u.tokens == s.tokens && u.effects == s.effects &&
      u.operators == s.operators[founder := s.operators[founder].(tenant := Some(newTenant))]
  }

  ghost predicate Consumed(s: State, u: State, job: Job, o: nat, row: Operator)
    requires Uses(job)
  {
    && job.used in s.tokens && u.tokens == s.tokens[job.used := s.tokens[job.used].(consumed := true)]
    && u.operators == s.operators[o := row]
    && u.effects == s.effects + [Effect(job.used, PurposeOf(job), o)]
  }

  // ---------------------------------------------------------------- statement by statement

  /** The call is the only one in progress. */
  function During(s: State, i: nat, w: Worker): State { s.(workers := map[i := w]) }

  function Started(job: Job): Worker { Worker(job, FirstPc(job), {}, None, None, None) }

  lemma Extend(s: State, acts: seq<Action>, a: Action)
    ensures CanRun(s, acts + [a]) <==> CanRun(s, acts) && Enabled(Run(s, acts), a)
    ensures CanRun(s, acts + [a]) ==> Run(s, acts + [a]) == Do(Run(s, acts), a)
  {
    assert (acts + [a])[..|acts|] == acts;
  }

  /** The next statement of the call is possible exactly if `possible` holds, and leads to `w'`. */
  ghost predicate Leads(s: State, i: nat, now: int, w: Worker, possible: bool, w': Worker) {
    (CanStep(During(s, i, w), i, now) <==> possible) && (possible ==> Step(During(s, i, w), i) == During(s, i, w'))
  }

  lemma StartLeads(s: State, i: nat, job: Job)
    requires s.workers == map[]
    ensures Enabled(s, Begin(i, job)) <==> (job.Issue? ==> Open(job.token))
    ensures Enabled(s, Begin(i, job)) ==> Do(s, Begin(i, job)) == During(s, i, Started(job))
  {
  }

  function Taken(s: State, job: Job): Worker
    requires Uses(job) && job.used in s.tokens
  {
    Worker(job, if job.Accept? then Finding else Writing, {}, Some(s.tokens[job.used]), None, None)
  }

  lemma ConsumeLeads(s: State, i: nat, job: Job, now: int)
    requires s.workers == map[] && Uses(job)
    ensures CanStep(During(s, i, Started(job)), i, now) <==> Redeemable(s, job, now)
    ensures Redeemable(s, job, now) ==> Step(During(s, i, Started(job)), i) == During(s, i, Taken(s, job))
  {
  }

  lemma CommitLeads(s: State, i: nat, now: int, w: Worker)
    requires s.workers == map[] && w.pc.Committing? && (w.job.Issue? ==> w.job.newToken !in s.tokens)
    ensures CanStep(During(s, i, w), i, now) && Step(During(s, i, w), i) == Committed(During(s, i, w), i)
    ensures Committed(During(s, i, w), i).workers == map[]
  {
  }

  /** Three statements, of which the last one is the commit. */
  lemma ThreeSteps(s: State, i: nat, job: Job, now: int, w1: Worker, w2: Worker, first: bool, second: bool)
    requires s.workers == map[] && !job.Accept?
    requires Leads(s, i, now, Started(job), first, w1) && (first ==> Leads(s, i, now, w1, second, w2))
    requires first && second ==> w2.pc.Committing? && (w2.job.Issue? ==> w2.job.newToken !in s.tokens)
    ensures CanRun(s, Call(i, job, now)) <==> (job.Issue? ==> Open(job.token)) && first && second
    ensures CanRun(s, Call(i, job, now)) ==> Run(s, Call(i, job, now)) == Committed(During(s, i, w2), i)
  {
    hide CanStep, Step, Committed;
    var a, n := Begin(i, job), Next(i, now);
    StartLeads(s, i, job);
    Empty(s);
    Extend(s, [], a);
    assert [] + [a] == [a];
    Extend(s, [a], n);
    Extend(s, [a] + [n], n);
    Extend(s, [a] + [n] + [n], n);
    assert Call(i, job, now) == [a] + [n] + [n] + [n];
    if first && second {
      CommitLeads(s, i, now, w2);
    }
  }

  // ---------------------------------------------------------------- the calls

  lemma VerifyOrReset(s: State, i: nat, job: Job, now: int)
    requires s.workers == map[] && (job.Verify? || job.Reset?)
    ensures CanRun(s, Call(i, job, now)) <==> Possible(s, job, now)
    ensures Possible(s, job, now) ==> Achieved(s, Run(s, Call(i, job, now)), job, now)
  {
    ConsumeLeads(s, i, job, now);
    if !Redeemable(s, job, now) {
      ThreeSteps(s, i, job, now, Started(job), Started(job), false, false);
      return;
    }
    var t, w1 := s.tokens[job.used], Taken(s, job);
    var o := t.operator.value;
    var d := During(s, i, w1);
    assert forall p | Target(d, w1, p) :: p == o;
    if HasEmail(s, o, t.email) {
      assert Target(d, w1, o);
      var w2 := w1.(pc := Committing, write := Some(Written(d, w1)));
      ThreeSteps(s, i, job, now, w1, w2, true, true);
    } else {
      ThreeSteps(s, i, job, now, w1, w1, true, false);
    }
  }

  lemma IssueCall(s: State, i: nat, job: Job, now: int)
    requires s.workers == map[] && job.Issue?
    ensures CanRun(s, Call(i, job, now)) <==> Possible(s, job, now)
    ensures Possible(s, job, now) ==> Achieved(s, Run(s, Call(i, job, now)), job, now)
  {
    var d := During(s, i, Started(job));
    var w1 := Started(job).(pc := Inserting, revokes := Superseded(d, job.token));
    ThreeSteps(s, i, job, now, w1, w1.(pc := Committing), true, job.newToken !in s.tokens);
  }

  lemma FoundCall(s: State, i: nat, job: Job, now: int)
    requires s.workers == map[] && job.Found?
    ensures CanRun(s, Call(i, job, now)) <==> Possible(s, job, now)
    ensures Possible(s, job, now) ==> Achieved(s, Run(s, Call(i, job, now)), job, now)
  {
    var w, o := Started(job), job.founder;
    var d := During(s, i, w);
    assert forall p | Target(d, w, p) :: p == o;
    if o !in s.operators {
      ThreeSteps(s, i, job, now, w, w, false, false);
      return;
    }
    assert Target(d, w, o);
    var row := s.operators[o];
    var w1 := w.(pc := Writing, found := Some(o));
    var w2 := w1.(pc := Committing, write := Some((o, row.(tenant := Some(job.newTenant)))));
    ThreeSteps(s, i, job, now, w1, w2, row.verified && row.active && !Given(row.tenant), job.newTenant != "");
  }

  lemma FourSteps(s: State, i: nat, job: Job, now: int, w2: Worker, w3: Worker, first: bool, second: bool, third: bool)
    requires s.workers == map[] && job.Accept? && (first ==> job.used in s.tokens)
    requires (CanStep(During(s, i, Started(job)), i, now) <==> first)
    requires first ==> Step(During(s, i, Started(job)), i) == During(s, i, Taken(s, job))
    requires first ==> Leads(s, i, now, Taken(s, job), second, w2)
    requires first && second ==> Leads(s, i, now, w2, third, w3)
    requires first && second && third ==> w3.pc.Committing? && w3.job == job
    ensures CanRun(s, Call(i, job, now)) <==> first && second && third
    ensures first && second && third ==> Run(s, Call(i, job, now)) == Committed(During(s, i, w3), i)
  {
    hide CanStep, Step, Committed;
    var a, n := Begin(i, job), Next(i, now);
    StartLeads(s, i, job);
    Empty(s);
    Extend(s, [], a);
    assert [] + [a] == [a];
    Extend(s, [a], n);
    Extend(s, [a] + [n], n);
    Extend(s, [a] + [n] + [n], n);
    Extend(s, [a] + [n] + [n] + [n], n);
    assert Call(i, job, now) == [a] + [n] + [n] + [n] + [n];
    if first && second && third {
      CommitLeads(s, i, now, w3);
    }
  }

  /** No operator of the email is in another tenant. */
  ghost predicate Admissible(s: State, job: Job)
    requires job.Accept? && job.used in s.tokens
  {
    forall o | HasEmail(s, o, s.tokens[job.used].email) ::
      Given(s.operators[o].tenant) ==> s.operators[o].tenant == s.tokens[job.used].tenant
  }

  lemma AcceptCall(s: State, i: nat, job: Job, now: int)
    requires s.workers == map[] && UniqueEmails(s) && job.Accept?
    ensures CanRun(s, Call(i, job, now)) <==> Possible(s, job, now)
    ensures Possible(s, job, now) ==> Achieved(s, Run(s, Call(i, job, now)), job, now)
  {
    ConsumeLeads(s, i, job, now);
    if !Redeemable(s, job, now) {
      FourSteps(s, i, job, now, Started(job), Started(job), false, false, false);
      return;
    }
    var t, w1 := s.tokens[job.used], Taken(s, job);
    var d1 := During(s, i, w1);
    var w2 := w1.(pc := Writing, found := Chosen(d1, w1));
    FindLeads(s, i, job, now);
    if w2.found.Some? || job.newOperator !in s.operators {
      var w3 := w2.(pc := Committing, write := Some(Written(During(s, i, w2), w2)));
      WriteLeads(s, i, job, now);
      FourSteps(s, i, job, now, w2, w3, true, Admissible(s, job), true);
    } else {
      NoRoom(s, i, job, now);
      FourSteps(s, i, job, now, w2, w2, true, Admissible(s, job), false);
    }
  }

  /** The transaction of an accepted invitation after it has looked for the operator. */
  ghost function Looked(s: State, i: nat, job: Job): Worker
    requires job.Accept? && job.used in s.tokens
  {
    var w1 := Taken(s, job);
    w1.(pc := Writing, found := Chosen(During(s, i, w1), w1))
  }

  lemma FindLeads(s: State, i: nat, job: Job, now: int)
    requires s.workers == map[] && job.Accept? && Redeemable(s, job, now)
    ensures Leads(s, i, now, Taken(s, job), Admissible(s, job), Looked(s, i, job))
    ensures Looked(s, i, job).found.None? <==> forall o :: !HasEmail(s, o, s.tokens[job.used].email)
    ensures Looked(s, i, job).found.Some? ==> HasEmail(s, Looked(s, i, job).found.value, s.tokens[job.used].email)
  {
    var w1 := Taken(s, job);
    var d1 := During(s, i, w1);
    assert forall o :: Target(d1, w1, o) <==> HasEmail(s, o, s.tokens[job.used].email);
  }

  lemma WriteLeads(s: State, i: nat, job: Job, now: int)
    requires s.workers == map[] && UniqueEmails(s) && job.Accept? && Redeemable(s, job, now)
    requires Looked(s, i, job).found.Some? || job.newOperator !in s.operators
    ensures var w := Looked(s, i, job);
            var w' := w.(pc := Committing, write := Some(Written(During(s, i, w), w)));
            && Leads(s, i, now, w, true, w')
            && (Possible(s, job, now) ==> Achieved(s, Committed(During(s, i, w'), i), job, now))
  {
    FindLeads(s, i, job, now);
  }

  lemma NoRoom(s: State, i: nat, job: Job, now: int)
    requires s.workers == map[] && job.Accept? && Redeemable(s, job, now)
    requires Looked(s, i, job).found.None? && job.newOperator in s.operators
    ensures Leads(s, i, now, Looked(s, i, job), false, Looked(s, i, job)) && !Possible(s, job, now)
  {
    FindLeads(s, i, job, now);
  }

  /**
   A call that nobody disturbs runs to its commit exactly if the tokens and operators are such that it is possible, and
   then it achieves what it is for and nothing else. In particular every pending token with a complete row can be used.
   */
  lemma UndisturbedCall(s: State, i: nat, job: Job, now: int)
    requires s.workers == map[] && UniqueEmails(s)
    ensures CanRun(s, Call(i, job, now)) <==> Possible(s, job, now)
    ensures Possible(s, job, now) ==> Achieved(s, Run(s, Call(i, job, now)), job, now)
  {
    hide CanRun, Run, Possible, Achieved;
    match job
    case Issue(_, _) => IssueCall(s, i, job, now);
    case Found(_, _) => FoundCall(s, i, job, now);
    case Accept(_, _, _) => AcceptCall(s, i, job, now);
    case _ => VerifyOrReset(s, i, job, now);
  }
}
