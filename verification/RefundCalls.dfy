/** What a refund call achieves: that its row is the one asked for, that retries are replayed, and its whole effect. */
module RefundCalls {
  import opened Prelude
  import opened Refunds
  import opened RefundSafety
  import Ledger

  // ---------------------------------------------------------------- every refund row was asked for

  /** The committed call that asked for this refund, under its key, and was told of it. */
  ghost predicate AskedFor(s: State, c: nat, r: Transaction) {
    && c in s.workers && s.workers[c].key == r.key
    && c in s.ledger.runs && s.ledger.runs[c].hash == Refund(r.order, r.amount, r.reason)
    && s.ledger.runs[c].phase == Ledger.Committed(Row(r))
  }

  ghost predicate RepliesWithRow(w: Worker, phase: Ledger.Phase<Reply>) {
    w.row.Some? ==>
      (w.pc.Finalizing? ==> w.pc.reply == Row(w.row.value)) && (phase.Finalized? ==> phase.response == Row(w.row.value))
  }

  ghost predicate Traced(s: State)
    requires InSteps(s)
  {
    && (forall i | 0 <= i < |s.tables.transactions| && s.tables.transactions[i].refund ::
          exists c :: AskedFor(s, c, s.tables.transactions[i]))
    && (forall j {:trigger RepliesWithRow(s.workers[j], s.ledger.runs[j].phase)} | j in s.workers ::
          RepliesWithRow(s.workers[j], s.ledger.runs[j].phase))
  }

  lemma AskedForStays(s: State, a: Action, c: nat, r: Transaction)
    requires Inv(s) && Enabled(s, a) && AskedFor(s, c, r)
    ensures AskedFor(Do(s, a), c, r)
  {
    hide TablesOk, WorkersOk, LocksApart, Recorded, Ledger.Inv;
    if !Acts(a, c) {
      OthersInStep(s, a, c);
    }
  }

  lemma DoKeepsReplies(s: State, a: Action, j: nat)
    requires Inv(s) && Traced(s) && Enabled(s, a) && j in Do(s, a).workers && j in Do(s, a).ledger.runs
    ensures RepliesWithRow(Do(s, a).workers[j], Do(s, a).ledger.runs[j].phase)
  {
    hide TablesOk, LocksApart, Recorded, Ledger.Inv;
    if j in s.workers {
      assert RepliesWithRow(s.workers[j], s.ledger.runs[j].phase);
      assert InStep(s.guards, s.tables, s.workers[j], s.ledger.runs[j]) && WorkerOk(s.guards, s.tables, s.workers[j]);
      if !Acts(a, j) {
        OthersInStep(s, a, j);
      }
    }
  }

  lemma DoKeepsTraced(s: State, a: Action)
    requires Inv(s) && Traced(s) && Enabled(s, a)
    ensures InSteps(Do(s, a)) && Traced(Do(s, a))
  {
    hide LocksApart, Recorded, Ledger.Inv;
    var u := Do(s, a);
    DoKeepsInSteps(s, a);
    forall j | j in u.workers ensures RepliesWithRow(u.workers[j], u.ledger.runs[j].phase) {
      DoKeepsReplies(s, a, j);
    }
    forall i | 0 <= i < |u.tables.transactions| && u.tables.transactions[i].refund
      ensures exists c :: AskedFor(u, c, u.tables.transactions[i])
    {
      if i < |s.tables.transactions| {
        assert u.tables.transactions[i] == s.tables.transactions[i];
        var c :| AskedFor(s, c, s.tables.transactions[i]);
        AskedForStays(s, a, c, s.tables.transactions[i]);
      } else {
        CommitTraces(s, a, i);
      }
    }
  }

  lemma CommitTraces(s: State, a: Action, i: nat)
    requires Inv(s) && Traced(s) && Enabled(s, a)
    requires |s.tables.transactions| <= i < |Do(s, a).tables.transactions| && Do(s, a).tables.transactions[i].refund
    ensures a.Commit? && AskedFor(Do(s, a), a.id, Do(s, a).tables.transactions[i])
  {
    hide LocksApart, Recorded, Ledger.Inv, TablesOk;
    assert a.Commit?;
    assert InStep(s.guards, s.tables, s.workers[a.id], s.ledger.runs[a.id]);
    assert WorkerOk(s.guards, s.tables, s.workers[a.id]);
    assert RepliesWithRow(s.workers[a.id], s.ledger.runs[a.id].phase);
  }

  lemma {:induction false} RunKeepsTraced(s: State, acts: seq<Action>)
    requires Inv(s) && Traced(s) && CanRun(s, acts)
    ensures Inv(Run(s, acts)) && Traced(Run(s, acts))
    decreases |acts|
  {
    if acts != [] {
      RunKeepsInv(s, [acts[0]]);
      assert Run(s, [acts[0]]) == Do(s, acts[0]);
      DoKeepsTraced(s, acts[0]);
      RunKeepsTraced(Do(s, acts[0]), acts[1..]);
    }
  }

  /** Every refund row is of the order and amount, and for the reason, that one committed call asked for under its key. */
  lemma RefundWasAskedFor(guards: Guards, acts: seq<Action>, i: nat) returns (c: nat)
    requires guards.ledger || guards.index
    requires CanRun(Init(guards), acts)
    requires i < |Run(Init(guards), acts).tables.transactions| && Run(Init(guards), acts).tables.transactions[i].refund
    ensures AskedFor(Run(Init(guards), acts), c, Run(Init(guards), acts).tables.transactions[i])
  {
    RunKeepsInv(Init(guards), []);
    RunKeepsTraced(Init(guards), acts);
    c :| AskedFor(Run(Init(guards), acts), c, Run(Init(guards), acts).tables.transactions[i]);
  }

  // ---------------------------------------------------------------- statement by statement

  lemma Steps(s: State, a: Action, rest: seq<Action>)
    requires Enabled(s, a) && CanRun(Do(s, a), rest)
    ensures CanRun(s, [a] + rest) && Run(s, [a] + rest) == Run(Do(s, a), rest)
  {
    assert ([a] + rest)[1..] == rest;
  }

  /** The key under which a call is entered in the ledger. */
  function KeyOf(g: Guards, key: string): Option<string> { if g.ledger then Some(key) else None }

  function Fresh(op: Op, key: string, pc: Pc): Worker { Worker(op, key, pc, {}, None, false, None) }

  lemma BeginDoes(s: State, i: nat, op: Op, key: string)
    requires i !in s.workers && i !in s.ledger.runs && key != ""
    ensures Enabled(s, Begin(i, op, key)) && Ledger.Enabled(s.ledger, Ledger.Begin(i, KeyOf(s.guards, key), op))
    ensures Do(s, Begin(i, op, key)) ==
            s.(ledger := Ledger.Do(s.ledger, Ledger.Begin(i, KeyOf(s.guards, key), op)),
               workers := s.workers[i := Fresh(op, key, Claiming)])
  {
  }

  lemma ClaimDoes(s: State, a: Action)
    requires (a.Claim? || a.Read?) && a.id in s.workers && Ledger.Enabled(s.ledger, OnLedger(s, a).value)
    ensures Enabled(s, a) && var l := Ledger.Do(s.ledger, OnLedger(s, a).value);
            && a.id in l.runs
            && Do(s, a) == s.(ledger := l, workers := s.workers[a.id := AfterClaim(s.workers[a.id], l.runs[a.id].phase)])
  {
  }

  lemma BodyDoes(s: State, i: nat)
    requires Enabled(s, Body(i))
    ensures Do(s, Body(i)) == s.(workers := s.workers[i := Execute(s.guards, s.tables, s.workers[i])])
  {
    hide Execute, Needs;
  }

  // ---------------------------------------------------------------- retries

  function Retry(i: nat, op: Op, key: string): seq<Action> {
    [Begin(i, op, key)] + ([Claim(i)] + ([Read(i)] + ([Commit(i)] + [])))
  }

  lemma RetryRuns(s: State, i: nat, op: Op, key: string)
    requires s.guards.ledger && Ledger.Inv(s.ledger) && i !in s.workers && i !in s.ledger.runs && key != ""
    requires key in s.ledger.rows && s.ledger.rows[key].status.Completed? && s.ledger.rows[key].hash == op
    ensures CanRun(s, Retry(i, op, key))
    ensures var t := Run(s, Retry(i, op, key));
            i in t.ledger.runs && t.ledger.runs[i].phase == Ledger.Returned(s.ledger.rows[key].response) && t.tables == s.tables
  {
    Ledger.RetryReplays(s.ledger, i, key);
    BeginDoes(s, i, op, key);
    hide Do, Enabled, Ledger.Do, Ledger.Enabled, Ledger.Replays, Ledger.Inv;
    RetryGoesOn(Do(s, Begin(i, op, key)), i, s.ledger.rows[key].response);
    Steps(s, Begin(i, op, key), [Claim(i)] + ([Read(i)] + ([Commit(i)] + [])));
  }

  lemma RetryGoesOn(s: State, i: nat, stored: Ledger.Stored<Reply>)
    requires i in s.workers && s.workers[i].row.None? && !s.workers[i].closes && s.workers[i].notice.None?
    requires Ledger.Replays(s.ledger, i, stored)
    ensures var rest := [Claim(i)] + ([Read(i)] + ([Commit(i)] + []));
            && CanRun(s, rest) && i in Run(s, rest).ledger.runs
            && Run(s, rest).ledger.runs[i].phase == Ledger.Returned(stored) && Run(s, rest).tables == s.tables
  {
    hide Ledger.Do, Ledger.Enabled;
    ClaimDoes(s, Claim(i));
    var s2 := Do(s, Claim(i));
    ClaimDoes(s2, Read(i));
    var s3 := Do(s2, Read(i));
    NothingWritten(s.tables, s3.workers[i]);
    Steps(s3, Commit(i), []);
    Steps(s2, Read(i), [Commit(i)] + []);
    Steps(s, Claim(i), [Read(i)] + ([Commit(i)] + []));
  }

  /** In every reachable state a retry of a completed refund gets the reply of the call that committed, and refunds nothing. */
  lemma RetryIsReplayed(guards: Guards, acts: seq<Action>, i: nat, key: string) returns (c: nat, reply: Reply)
    requires guards.ledger && CanRun(Init(guards), acts)
    requires var s := Run(Init(guards), acts);
             i !in s.workers && key in s.ledger.rows && s.ledger.rows[key].status.Completed? && key != ""
    ensures var s := Run(Init(guards), acts);
            var op := s.ledger.rows[key].hash;
            && Ledger.CommittedAs(s.ledger, c, key, op, reply) && CanRun(s, Retry(i, op, key))
            && var t := Run(s, Retry(i, op, key));
               i in t.ledger.runs && t.ledger.runs[i].phase == Ledger.Returned(Ledger.Response(reply)) && t.tables == s.tables
  {
    RunKeepsInv(Init(guards), acts);
    var s := Run(Init(guards), acts);
    c, reply := Ledger.CompletedIsReplayed(s.ledger, i, key);
    RetryRuns(s, i, s.ledger.rows[key].hash, key);
  }

  // ---------------------------------------------------------------- a call that nobody disturbs

  /** No transaction is in progress. */
  ghost predicate AtRest(s: State) { Inv(s) && forall j | j in s.ledger.runs :: Ledger.Finished(s.ledger.runs[j].phase) }

  /** Call `i` is in progress, and has come this far. */
  function During(s: State, i: nat, key: Option<string>, phase: Ledger.Phase<Reply>, w: Worker): State {
    State(s.guards, s.tables, s.ledger.(runs := s.ledger.runs[i := Ledger.Attempt(key, w.op, phase)]), s.workers[i := w])
  }

  ghost predicate NothingHeld(s: State) { forall j | j in s.workers :: s.workers[j].locks == {} }

  lemma RestHoldsNothing(s: State, key: Option<string>)
    requires AtRest(s) && (key.Some? ==> key.value !in s.ledger.rows)
    ensures NothingHeld(s) && Ledger.Unclaimed(s.ledger, key)
  {
    hide TablesOk, LocksApart;
    forall j | j in s.workers ensures s.workers[j].locks == {} {
      assert InStep(s.guards, s.tables, s.workers[j], s.ledger.runs[j]) && WorkerOk(s.guards, s.tables, s.workers[j]);
    }
  }

  lemma BodyRuns(s: State, i: nat, key: Option<string>, w: Worker, rest: seq<Action>)
    requires NothingHeld(s) && CanExecute(s.tables, w)
    requires CanRun(During(s, i, key, Ledger.Working, Execute(s.guards, s.tables, w)), rest)
    ensures var d := During(s, i, key, Ledger.Working, w);
            && CanRun(d, [Body(i)] + rest)
            && Run(d, [Body(i)] + rest) == Run(During(s, i, key, Ledger.Working, Execute(s.guards, s.tables, w)), rest)
  {
    hide Execute, Needs;
    var d := During(s, i, key, Ledger.Working, w);
    forall j | j in d.workers && j != i ensures d.workers[j].locks !! Needs(s.guards, s.tables, w) {
    }
    BodyDoes(d, i);
    ExecuteKeepsOp(s.guards, s.tables, w);
    assert Do(d, Body(i)) == During(s, i, key, Ledger.Working, Execute(s.guards, s.tables, w));
    Steps(d, Body(i), rest);
  }

  lemma ExecuteKeepsOp(g: Guards, t: Tables, w: Worker)
    requires CanExecute(t, w)
    ensures Execute(g, t, w).op == w.op && Execute(g, t, w).key == w.key
  {
  }

  lemma StartRuns(s: State, i: nat, op: Op, key: string, rest: seq<Action>)
    requires i !in s.workers && i !in s.ledger.runs && key != "" && Ledger.Unclaimed(s.ledger, KeyOf(s.guards, key))
    requires CanRun(During(s, i, KeyOf(s.guards, key), Ledger.Working, Fresh(op, key, TakeAdvisory)), rest)
    ensures var acts := [Begin(i, op, key)] + ([Claim(i)] + rest);
            && CanRun(s, acts)
            && Run(s, acts) == Run(During(s, i, KeyOf(s.guards, key), Ledger.Working, Fresh(op, key, TakeAdvisory)), rest)
  {
    hide Execute, Needs;
    var k := KeyOf(s.guards, key);
    BeginDoes(s, i, op, key);
    var d := During(s, i, k, Ledger.Ready, Fresh(op, key, Claiming));
    assert Do(s, Begin(i, op, key)) == d;
    ClaimDoes(d, Claim(i));
    var e := During(s, i, k, Ledger.Working, Fresh(op, key, TakeAdvisory));
    assert Do(d, Claim(i)).ledger.runs == e.ledger.runs && Do(d, Claim(i)).workers == e.workers;
    Steps(d, Claim(i), rest);
    Steps(s, Begin(i, op, key), [Claim(i)] + rest);
  }

  lemma EndRuns(s: State, i: nat, key: Option<string>, w: Worker)
    requires w.pc.Finalizing?
    ensures var d := During(s, i, key, Ledger.Working, w);
            var acts := [Finalize(i)] + ([Commit(i)] + []);
            && CanRun(d, acts) && i in Run(d, acts).ledger.runs
            && Run(d, acts).ledger.runs[i].phase == Ledger.Committed(w.pc.reply)
            && Run(d, acts).tables == Committed(s.tables, w)
  {
    hide Execute, Needs;
    var d := During(s, i, key, Ledger.Working, w);
    var e := During(s, i, key, Ledger.Finalized(w.pc.reply), w.(pc := Committing));
    assert Do(d, Finalize(i)).ledger.runs == e.ledger.runs && Do(d, Finalize(i)).workers == e.workers;
    assert Do(d, Finalize(i)) == e;
    Steps(e, Commit(i), []);
    Steps(d, Finalize(i), [Commit(i)] + []);
  }

  /**
   The refund has been made: one row of the amount asked for, for the reason given, the order refunded, and one notice.
   A transaction id that is in use instead gives the row that has it, and changes nothing.
   */
  ghost predicate RefundMade(g: Guards, t: Tables, u: Tables, op: Op, key: string, reply: Reply) {
    if g.index && KeyTaken(t, key) then u == t && reply.Row? && reply.row in t.transactions && reply.row.key == key
    else
      var r := Transaction(key, true, op.order, op.amount, op.reason);
      && reply == Row(r) && u.transactions == t.transactions + [r]
      && u.orders == t.orders[op.order := Refunded]
      && u.outbox == if Noticed(t, key) then t.outbox else t.outbox + [Notice(key, op.order)]
  }

  lemma InsertsRow(g: Guards, t: Tables, w: Worker)
    requires w.pc.TakeAdvisory? && w.row.None? && !w.closes && w.notice.None? && w.op.order in t.orders
    requires !(g.index && KeyTaken(t, w.key))
    ensures var w1 := Execute(g, t, w);
            && CanExecute(t, w1) && var w2 := Execute(g, t, w1);
            && CanExecute(t, w2) && var w3 := Execute(g, t, w2);
            && CanExecute(t, w3) && var w4 := Execute(g, t, w3);
            && CanExecute(t, w4) && var w5 := Execute(g, t, w4);
            && w5.pc.Finalizing? && RefundMade(g, t, Committed(t, w5), w.op, w.key, w5.pc.reply)
  {
  }

  lemma FindsRow(g: Guards, t: Tables, w: Worker)
    requires w.pc.TakeAdvisory? && w.row.None? && !w.closes && w.notice.None? && w.op.order in t.orders
    requires g.index && KeyTaken(t, w.key)
    ensures var w1 := Execute(g, t, w);
            && CanExecute(t, w1) && var w2 := Execute(g, t, w1);
            && CanExecute(t, w2) && var w3 := Execute(g, t, w2);
            && CanExecute(t, w3) && var w4 := Execute(g, t, w3);
            && w4.pc.Finalizing? && RefundMade(g, t, Committed(t, w4), w.op, w.key, w4.pc.reply)
  {
  }

  /** A refund that nobody disturbs is made exactly if its order exists; otherwise it throws when it looks for the order. */
  lemma UndisturbedRefund(s: State, i: nat, op: Op, key: string) returns (acts: seq<Action>, reply: Reply)
    requires AtRest(s) && i !in s.workers && key != "" && (s.guards.ledger ==> key !in s.ledger.rows)
    ensures CanRun(s, acts) && i in Run(s, acts).ledger.runs
    ensures var u := Run(s, acts);
            if op.order in s.tables.orders then
              u.ledger.runs[i].phase == Ledger.Committed(reply) && RefundMade(s.guards, s.tables, u.tables, op, key, reply)
            else u.tables == s.tables && i in u.workers && InBody(u.workers[i].pc) && Throws(u.tables, u.workers[i])
  {
    hide Execute, Committed, RefundMade, Inv;
    var k, w := KeyOf(s.guards, key), Fresh(op, key, TakeAdvisory);
    assert Inv(s) ==> i !in s.ledger.runs by {
      KeysMatch(s);
    }
    RestHoldsNothing(s, k);
    acts, reply := BodiesRun(s, i, k, w);
    StartRuns(s, i, op, key, acts);
    acts := [Begin(i, op, key)] + ([Claim(i)] + acts);
  }

  lemma KeysMatch(s: State)
    requires Inv(s)
    ensures s.ledger.runs.Keys == s.workers.Keys
  {
  }

  lemma BodiesRun(s: State, i: nat, k: Option<string>, w: Worker) returns (acts: seq<Action>, reply: Reply)
    requires NothingHeld(s) && w == Fresh(w.op, w.key, TakeAdvisory)
    ensures var d := During(s, i, k, Ledger.Working, w);
            && CanRun(d, acts) && i in Run(d, acts).ledger.runs
            && var u := Run(d, acts);
               if w.op.order in s.tables.orders then
                 u.ledger.runs[i].phase == Ledger.Committed(reply) && RefundMade(s.guards, s.tables, u.tables, w.op, w.key, reply)
               else u.tables == s.tables && i in u.workers && InBody(u.workers[i].pc) && Throws(u.tables, u.workers[i])
  {
    var g, t := s.guards, s.tables;
    var w1 := Execute(g, t, w);
    if w.op.order !in t.orders {
      BodyRuns(s, i, k, w, []);
      acts, reply := [Body(i)] + [], NoRow;
      return;
    }
    var end := [Finalize(i)] + ([Commit(i)] + []);
    if g.index && KeyTaken(t, w.key) {
      FindsRow(g, t, w);
      hide Execute, Committed, RefundMade, KeyTaken;
      var w2 := Execute(g, t, w1);
      var w3 := Execute(g, t, w2);
      var w4 := Execute(g, t, w3);
      EndRuns(s, i, k, w4);
      BodyRuns(s, i, k, w3, end);
      acts, reply := [Body(i)] + end, w4.pc.reply;
      BodyRuns(s, i, k, w2, acts);
    } else {
      InsertsRow(g, t, w);
      hide Execute, Committed, RefundMade, KeyTaken;
      var w2 := Execute(g, t, w1);
      var w3 := Execute(g, t, w2);
      var w4 := Execute(g, t, w3);
      var w5 := Execute(g, t, w4);
      EndRuns(s, i, k, w5);
      BodyRuns(s, i, k, w4, end);
      BodyRuns(s, i, k, w3, [Body(i)] + end);
      acts, reply := [Body(i)] + ([Body(i)] + end), w5.pc.reply;
      BodyRuns(s, i, k, w2, acts);
    }
    acts := [Body(i)] + acts;
    BodyRuns(s, i, k, w1, acts);
    acts := [Body(i)] + acts;
    BodyRuns(s, i, k, w, acts);
    acts := [Body(i)] + acts;
  }
}
