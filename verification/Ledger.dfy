/**
 The idempotency ledger of the platform database (table platform_idempotency_keys).

 A keyed operation runs inside one transaction: it claims its (scope, key) row with
 INSERT .. ON CONFLICT DO NOTHING, runs its statements, marks the row completed with its response, and
 commits. If anything throws it rolls back and then, outside any transaction, stamps the row failed.

 Each action below is one SQL statement of one run. `K` is the (scope, key) pair, `H` the request payload
 (its digest is taken to be injective) and `R` the response. A row that has been inserted but not committed
 lives in the phase of the run that holds it; `rows` is what the other sessions can see.
 */
module Ledger {
  import opened Prelude

  datatype Status = Completed | Failed

  datatype Stored<R> = Nothing | Response(value: R) | ErrorNote

  datatype Row<H, R> = Row(hash: H, status: Status, response: Stored<R>)

  datatype Phase<R> =
    | Ready                        // BEGIN done, the claiming INSERT comes next
    | Conflicted                   // the INSERT returned no row, the SELECT comes next
    | Working                      // claimed: the statements of the operation run
    | Finalized(response: R)       // row marked completed, COMMIT comes next
    | Committed(response: R)       // the effect is durable
    | Replaying(stored: Stored<R>)
    | Returned(stored: Stored<R>)
    | Refused                      // other payload, or not completed: threw without claiming
    | Stamping                     // rolled back after claiming, the failed stamp comes next
    | Ended                        // failed

  datatype Attempt<K, H, R> = Attempt(key: Option<K>, hash: H, phase: Phase<R>)

  datatype State<!K, H, R> = State(rows: map<K, Row<H, R>>, runs: map<nat, Attempt<K, H, R>>)

  datatype Action<K, H, R> =
    | Begin(id: nat, key: Option<K>, hash: H)
    | Claim(id: nat)
    | Read(id: nat)
    | Finalize(id: nat, response: R)
    | Commit(id: nat)
    | Fail(id: nat)    // any statement throws: ROLLBACK
    | Crash(id: nat)   // the process or its connection dies: rolled back, never stamped
    | Stamp(id: nat)

  predicate Claimed<K, H, R>(run: Attempt<K, H, R>) {
    run.key.Some? && (run.phase.Working? || run.phase.Finalized?)
  }

  /** Some other run holds an uncommitted row under the key, so an INSERT of the key waits. */
  predicate HeldByOther<K(==), H, R>(s: State<K, H, R>, id: nat, key: K) {
    exists j | j in s.runs :: j != id && Claimed(s.runs[j]) && s.runs[j].key == Some(key)
  }

  predicate Finished<R>(p: Phase<R>) {
    p.Committed? || p.Returned? || p.Refused? || p.Ended?
  }

  predicate Enabled<K(==), H, R>(s: State<K, H, R>, a: Action<K, H, R>) {
    match a
    case Begin(id, _, _) => id !in s.runs
    case Claim(id) =>
      id in s.runs && s.runs[id].phase.Ready? &&
      (s.runs[id].key.Some? ==> !HeldByOther(s, id, s.runs[id].key.value))
    case Read(id) => id in s.runs && s.runs[id].phase.Conflicted? && s.runs[id].key.Some?
    case Finalize(id, _) => id in s.runs && s.runs[id].phase.Working?
    case Commit(id) => id in s.runs && (s.runs[id].phase.Finalized? || s.runs[id].phase.Replaying?)
    case Fail(id) => id in s.runs && !Finished(s.runs[id].phase) && !s.runs[id].phase.Stamping?
    case Crash(id) => id in s.runs && !Finished(s.runs[id].phase)
    case Stamp(id) => id in s.runs && s.runs[id].phase.Stamping? && s.runs[id].key.Some?
  }

  function Goto<K, H, R>(s: State<K, H, R>, id: nat, p: Phase<R>): State<K, H, R>
    requires id in s.runs
  {
    s.(runs := s.runs[id := s.runs[id].(phase := p)])
  }

  /** What the SELECT after a conflict leads to. The first case is the code's "no existing row" branch. */
  function ReadOutcome<K, H(==), R>(rows: map<K, Row<H, R>>, key: K, hash: H): Phase<R> {
    if key !in rows then Working
    else if rows[key].hash != hash then Refused
    else if rows[key].status.Completed? then Replaying(rows[key].response)
    else Refused
  }

  function Do<K(==), H(==), R>(s: State<K, H, R>, a: Action<K, H, R>): State<K, H, R>
    requires Enabled(s, a)
  {
    match a
    case Begin(id, key, hash) => s.(runs := s.runs[id := Attempt(key, hash, Ready)])
    case Claim(id) =>
      var key := s.runs[id].key;
      Goto(s, id, if key.Some? && key.value in s.rows then Conflicted else Working)
    case Read(id) => Goto(s, id, ReadOutcome(s.rows, s.runs[id].key.value, s.runs[id].hash))
    case Finalize(id, response) => Goto(s, id, Finalized(response))
    case Commit(id) =>
      var run := s.runs[id];
      if run.phase.Replaying? then Goto(s, id, Returned(run.phase.stored))
      else
        var done := Goto(s, id, Committed(run.phase.response));
        if run.key.None? then done
        else done.(rows := s.rows[run.key.value := Row(run.hash, Completed, Response(run.phase.response))])
    case Fail(id) => Goto(s, id, if Claimed(s.runs[id]) then Stamping else Ended)
    case Crash(id) => Goto(s, id, Ended)
    case Stamp(id) =>
      var key := s.runs[id].key.value;
      var ended := Goto(s, id, Ended);
      if key !in s.rows then ended
      else ended.(rows := s.rows[key := s.rows[key].(status := Failed, response := ErrorNote)])
  }

  /** A step moves one run and leaves the others alone. */
  lemma OthersStay<K, H, R>(s: State<K, H, R>, a: Action<K, H, R>, j: nat)
    requires Enabled(s, a) && j in s.runs && j != a.id
    ensures j in Do(s, a).runs && Do(s, a).runs[j] == s.runs[j]
  {
  }

  lemma KeysAfter<K, H, R>(s: State<K, H, R>, a: Action<K, H, R>)
    requires Enabled(s, a)
    ensures Do(s, a).runs.Keys == s.runs.Keys + if a.Begin? then {a.id} else {}
  {
  }

  function Init<K, H, R>(): State<K, H, R> { State(map[], map[]) }

  predicate CanRun<K(==), H(==), R>(s: State<K, H, R>, acts: seq<Action<K, H, R>>)
    decreases |acts|
  {
    acts != [] ==> Enabled(s, acts[0]) && CanRun(Do(s, acts[0]), acts[1..])
  }

  function Run<K(==), H(==), R>(s: State<K, H, R>, acts: seq<Action<K, H, R>>): State<K, H, R>
    requires CanRun(s, acts)
    decreases |acts|
  {
    if acts == [] then s else Run(Do(s, acts[0]), acts[1..])
  }

  // ---------------------------------------------------------------- the invariant

  /** Run `c` committed under the key, with this payload and this response. */
  ghost predicate CommittedAs<K, H, R(!new)>(s: State<K, H, R>, c: nat, key: K, hash: H, response: R) {
    c in s.runs && s.runs[c] == Attempt(Some(key), hash, Committed(response))
  }

  ghost predicate RowExplained<K, H, R(!new)>(s: State<K, H, R>, key: K)
    requires key in s.rows
  {
    exists c, r :: CommittedAs(s, c, key, s.rows[key].hash, r) &&
                   (s.rows[key].status.Completed? ==> s.rows[key].response == Response(r))
  }

  ghost predicate ReplayExplained<K, H, R(!new)>(s: State<K, H, R>, key: K, hash: H, response: Stored<R>) {
    exists c, r :: CommittedAs(s, c, key, hash, r) && response == Response(r)
  }

  ghost predicate OneHolder<K, H, R(!new)>(s: State<K, H, R>) {
    forall i, j | i in s.runs && j in s.runs && Claimed(s.runs[i]) && Claimed(s.runs[j]) ::
      s.runs[i].key == s.runs[j].key ==> i == j
  }

  ghost predicate OneEffect<K, H, R(!new)>(s: State<K, H, R>) {
    forall i, j | i in s.runs && j in s.runs && s.runs[i].phase.Committed? && s.runs[j].phase.Committed? ::
      s.runs[i].key.Some? && s.runs[i].key == s.runs[j].key ==> i == j
  }

  ghost predicate RunOk<K, H, R(!new)>(s: State<K, H, R>, run: Attempt<K, H, R>) {
    && (Claimed(run) ==> run.key.value !in s.rows)
    && (run.phase.Committed? && run.key.Some? ==> run.key.value in s.rows && s.rows[run.key.value].hash == run.hash)
    && (run.phase.Conflicted? ==> run.key.Some? && run.key.value in s.rows)
    && (run.phase.Stamping? ==> run.key.Some?)
    && (run.phase.Replaying? || run.phase.Returned? ==>
          run.key.Some? && ReplayExplained(s, run.key.value, run.hash, run.phase.stored))
  }

  ghost predicate Inv<K(!new), H(!new), R(!new)>(s: State<K, H, R>) {
    && OneHolder(s)
    && OneEffect(s)
    && (forall key | key in s.rows :: RowExplained(s, key))
    && (forall i | i in s.runs :: RunOk(s, s.runs[i]))
  }

  /** Committed runs stay committed, so what they explain stays explained. */
  lemma DoKeepsCommitted<K(!new), H(!new), R(!new)>(s: State<K, H, R>, a: Action<K, H, R>)
    requires Inv(s) && Enabled(s, a)
    ensures forall c, key, hash, r | CommittedAs(s, c, key, hash, r) :: CommittedAs(Do(s, a), c, key, hash, r)
  {
  }

  lemma DoKeepsRows<K(!new), H(!new), R(!new)>(s: State<K, H, R>, a: Action<K, H, R>)
    requires Inv(s) && Enabled(s, a)
    ensures forall key | key in Do(s, a).rows :: RowExplained(Do(s, a), key)
  {
    var t := Do(s, a);
    DoKeepsCommitted(s, a);
    forall key | key in t.rows ensures RowExplained(t, key) {
      if key in s.rows {
        var c, r :| CommittedAs(s, c, key, s.rows[key].hash, r) &&
                    (s.rows[key].status.Completed? ==> s.rows[key].response == Response(r));
        assert CommittedAs(t, c, key, t.rows[key].hash, r);
      } else {
        assert CommittedAs(t, a.id, key, t.rows[key].hash, s.runs[a.id].phase.response);
      }
    }
  }

  lemma DoKeepsRuns<K(!new), H(!new), R(!new)>(s: State<K, H, R>, a: Action<K, H, R>)
    requires Inv(s) && Enabled(s, a)
    ensures forall i | i in Do(s, a).runs :: RunOk(Do(s, a), Do(s, a).runs[i])
  {
    var t := Do(s, a);
    DoKeepsCommitted(s, a);
    forall i | i in t.runs ensures RunOk(t, t.runs[i]) {
      var run := t.runs[i];
      if (run.phase.Replaying? || run.phase.Returned?) && i in s.runs {
        if s.runs[i].phase.Conflicted? {
          var c, r :| CommittedAs(s, c, run.key.value, run.hash, r) && run.phase.stored == Response(r);
          assert CommittedAs(t, c, run.key.value, run.hash, r);
        } else {
          var c, r :| CommittedAs(s, c, run.key.value, run.hash, r) && run.phase.stored == Response(r);
          assert CommittedAs(t, c, run.key.value, run.hash, r);
        }
      }
    }
  }

  lemma DoKeepsUnique<K(!new), H(!new), R(!new)>(s: State<K, H, R>, a: Action<K, H, R>)
    requires Inv(s) && Enabled(s, a)
    ensures OneHolder(Do(s, a)) && OneEffect(Do(s, a))
  {
    if a.Commit? {
      assert RunOk(s, s.runs[a.id]);
    }
  }

  lemma DoKeepsInv<K(!new), H(!new), R(!new)>(s: State<K, H, R>, a: Action<K, H, R>)
    requires Inv(s) && Enabled(s, a)
    ensures Inv(Do(s, a))
  {
    DoKeepsUnique(s, a);
    DoKeepsRows(s, a);
    DoKeepsRuns(s, a);
  }

  lemma {:induction false} RunKeepsInv<K(!new), H(!new), R(!new)>(s: State<K, H, R>, acts: seq<Action<K, H, R>>)
    requires Inv(s) && CanRun(s, acts)
    ensures Inv(Run(s, acts))
    decreases |acts|
  {
    if acts != [] {
      DoKeepsInv(s, acts[0]);
      RunKeepsInv(Do(s, acts[0]), acts[1..]);
    }
  }

  // ---------------------------------------------------------------- what the ledger is for

  /** Over every interleaving, at most one run under a key commits an effect. */
  lemma EffectOnce<K(!new), H(!new), R(!new)>(acts: seq<Action<K, H, R>>, i: nat, j: nat)
    requires CanRun(Init(), acts)
    requires i in Run(Init(), acts).runs && j in Run(Init(), acts).runs
    requires Run(Init(), acts).runs[i].phase.Committed? && Run(Init(), acts).runs[j].phase.Committed?
    requires Run(Init(), acts).runs[i].key.Some? && Run(Init(), acts).runs[i].key == Run(Init(), acts).runs[j].key
    ensures i == j
  {
    RunKeepsInv(Init<K, H, R>(), acts);
  }

  /** A replay returns the response stored by the one run that committed, and only for its payload. */
  lemma ReplayIsFaithful<K(!new), H(!new), R(!new)>(acts: seq<Action<K, H, R>>, i: nat) returns (c: nat, r: R)
    requires CanRun(Init(), acts) && i in Run(Init(), acts).runs && Run(Init(), acts).runs[i].phase.Returned?
    ensures var s := Run(Init(), acts);
            s.runs[i].key.Some? && CommittedAs(s, c, s.runs[i].key.value, s.runs[i].hash, r) &&
            s.runs[i].phase.stored == Response(r)
  {
    RunKeepsInv(Init<K, H, R>(), acts);
    var run := Run(Init(), acts).runs[i];
    c, r :| CommittedAs(Run(Init(), acts), c, run.key.value, run.hash, r) && run.phase.stored == Response(r);
  }

  /** The branch for a conflict without a row is dead: the SELECT never sends a run on to do the work. */
  lemma ConflictAlwaysHasRow<K(!new), H(!new), R(!new)>(acts: seq<Action<K, H, R>>, i: nat)
    requires CanRun(Init(), acts) && Enabled(Run(Init(), acts), Read(i))
    ensures Run(Init(), acts).runs[i].key.value in Run(Init(), acts).rows
    ensures !Do(Run(Init(), acts), Read(i)).runs[i].phase.Working?
  {
    RunKeepsInv(Init<K, H, R>(), acts);
  }

  /** A run that has not claimed and whose payload differs from the committed row. */
  ghost predicate Mismatched<K, H, R(!new)>(s: State<K, H, R>, i: nat) {
    && i in s.runs && s.runs[i].key.Some? && s.runs[i].key.value in s.rows
    && s.rows[s.runs[i].key.value].hash != s.runs[i].hash
    && (s.runs[i].phase.Ready? || s.runs[i].phase.Conflicted? || s.runs[i].phase.Refused? || s.runs[i].phase.Ended?)
  }

  lemma DoKeepsMismatch<K(!new), H(!new), R(!new)>(s: State<K, H, R>, a: Action<K, H, R>, i: nat)
    requires Inv(s) && Enabled(s, a) && Mismatched(s, i)
    ensures Mismatched(Do(s, a), i)
  {
    var key := s.runs[i].key.value;
    assert RowExplained(s, key);
    assert a.Commit? ==> RunOk(s, s.runs[a.id]);
  }

  lemma {:induction false} MismatchPersists<K(!new), H(!new), R(!new)>(
      s: State<K, H, R>, acts: seq<Action<K, H, R>>, i: nat)
    requires Inv(s) && CanRun(s, acts) && Mismatched(s, i)
    ensures Mismatched(Run(s, acts), i)
    decreases |acts|
  {
    if acts != [] {
      DoKeepsInv(s, acts[0]);
      DoKeepsMismatch(s, acts[0], i);
      MismatchPersists(Do(s, acts[0]), acts[1..], i);
    }
  }

  /** Reusing a key with another payload changes nothing: not now, and not after any further steps of anyone. */
  lemma MismatchIsInert<K(!new), H(!new), R(!new)>(
      s: State<K, H, R>, acts: seq<Action<K, H, R>>, a: Action<K, H, R>)
    requires Inv(s) && CanRun(s, acts) && Mismatched(s, a.id)
    requires Enabled(Run(s, acts), a)
    ensures Do(Run(s, acts), a).rows == Run(s, acts).rows
    ensures Mismatched(Do(Run(s, acts), a), a.id)
  {
    MismatchPersists(s, acts, a.id);
  }

  // ---------------------------------------------------------------- the late stamp

  ghost predicate NoStampDue<K, H, R(!new)>(s: State<K, H, R>, key: K) {
    forall i | i in s.runs :: !(s.runs[i].phase.Stamping? && s.runs[i].key == Some(key))
  }

  lemma DoKeepsCompleted<K(!new), H(!new), R(!new)>(s: State<K, H, R>, a: Action<K, H, R>, key: K)
    requires Inv(s) && Enabled(s, a)
    requires key in s.rows && s.rows[key].status.Completed? && NoStampDue(s, key)
    ensures key in Do(s, a).rows && Do(s, a).rows[key] == s.rows[key] && NoStampDue(Do(s, a), key)
  {
    assert !a.Begin? ==> RunOk(s, s.runs[a.id]);
  }

  /** A completed key stays replayable for ever, whatever runs next, once no rolled-back run still owes its stamp. */
  lemma {:induction false} CompletedSticks<K(!new), H(!new), R(!new)>(
      s: State<K, H, R>, acts: seq<Action<K, H, R>>, key: K)
    requires Inv(s) && CanRun(s, acts)
    requires key in s.rows && s.rows[key].status.Completed? && NoStampDue(s, key)
    ensures key in Run(s, acts).rows && Run(s, acts).rows[key] == s.rows[key]
    decreases |acts|
  {
    if acts != [] {
      DoKeepsInv(s, acts[0]);
      DoKeepsCompleted(s, acts[0], key);
      CompletedSticks(Do(s, acts[0]), acts[1..], key);
    }
  }

  // ---------------------------------------------------------------- a call that runs undisturbed

  predicate Unclaimed<K(==), H, R>(s: State<K, H, R>, key: Option<K>) {
    key.Some? ==> key.value !in s.rows && forall j | j in s.runs && Claimed(s.runs[j]) :: s.runs[j].key != key
  }

  /** A call without a key, or under a free one, does its work and leaves its response for every retry. */
  lemma FreeKeyCommits<K(!new), H(!new), R(!new)>(s: State<K, H, R>, i: nat, key: Option<K>, hash: H, response: R)
    requires i !in s.runs && Unclaimed(s, key)
    ensures var acts := [Begin(i, key, hash), Claim(i), Finalize(i, response), Commit(i)];
            && CanRun(s, acts) && Run(s, acts).runs == s.runs[i := Attempt(key, hash, Committed(response))]
            && Run(s, acts).rows ==
               if key.Some? then s.rows[key.value := Row(hash, Completed, Response(response))] else s.rows
  {
    var acts := [Begin(i, key, hash), Claim(i), Finalize(i, response), Commit(i)];
    var s1 := Do(s, acts[0]);
    var s2 := Do(s1, acts[1]);
    var s3 := Do(s2, acts[2]);
    Steps(s3, acts[3..]); Steps(s2, acts[2..]); Steps(s1, acts[1..]); Steps(s, acts);
  }

  // ---------------------------------------------------------------- retries are answered

  /** The statements of a retry that nobody interrupts, up to the read of the row. */
  function Retry<K, H, R>(i: nat, key: K, hash: H): seq<Action<K, H, R>> { [Begin(i, Some(key), hash), Claim(i), Read(i)] }

  /** A retry under a key that is in the ledger replays exactly if the row is completed and holds the same payload. */
  lemma RetryDecides<K(!new), H(!new), R(!new)>(s: State<K, H, R>, i: nat, key: K, hash: H)
    requires Inv(s) && key in s.rows && i !in s.runs
    ensures CanRun(s, Retry(i, key, hash)) && i in Run(s, Retry(i, key, hash)).runs
    ensures var t := Run(s, Retry(i, key, hash));
            && t.rows == s.rows && (t.runs[i].phase.Replaying? || t.runs[i].phase.Refused?)
            && (t.runs[i].phase.Replaying? <==> s.rows[key].hash == hash && s.rows[key].status.Completed?)
            && (t.runs[i].phase.Replaying? ==> t.runs[i].phase.stored == s.rows[key].response)
  {
    var acts: seq<Action<K, H, R>> := Retry(i, key, hash);
    var s1 := Do(s, acts[0]);
    forall j | j in s1.runs && Claimed(s1.runs[j]) ensures s1.runs[j].key != Some(key) {
      assert RunOk(s, s.runs[j]);
    }
    var s2 := Do(s1, acts[1]);
    Steps(s2, acts[2..]); Steps(s1, acts[1..]); Steps(s, acts);
  }

  /** A retry of a completed call gets the response of the run that committed, and writes nothing. */
  lemma CompletedIsReplayed<K(!new), H(!new), R(!new)>(s: State<K, H, R>, i: nat, key: K) returns (c: nat, response: R)
    requires Inv(s) && key in s.rows && s.rows[key].status.Completed? && i !in s.runs
    ensures CommittedAs(s, c, key, s.rows[key].hash, response) && s.rows[key].response == Response(response)
    ensures var acts := Retry(i, key, s.rows[key].hash) + [Commit(i)];
            && CanRun(s, acts) && i in Run(s, acts).runs
            && Run(s, acts).runs[i].phase == Returned(Response(response)) && Run(s, acts).rows == s.rows
  {
    assert RowExplained(s, key);
    c, response :| CommittedAs(s, c, key, s.rows[key].hash, response) && s.rows[key].response == Response(response);
    var retry: seq<Action<K, H, R>> := Retry(i, key, s.rows[key].hash);
    RetryDecides(s, i, key, s.rows[key].hash);
    RunsOn(s, retry, Commit(i));
  }

  /** The claim, the read and the commit of the run, one after the other, return the stored response. */
  ghost predicate Replays<K, H, R>(s: State<K, H, R>, i: nat, stored: Stored<R>) {
    Enabled(s, Claim(i)) &&
    var s1 := Do(s, Claim(i));
    Enabled(s1, Read(i)) && s1.runs[i].phase.Conflicted? &&
    var s2 := Do(s1, Read(i));
    Enabled(s2, Commit(i)) && s2.runs[i].phase == Replaying(stored) &&
    var s3 := Do(s2, Commit(i));
    i in s3.runs && s3.runs[i].phase == Returned(stored)
  }

  lemma RetryReplays<K(!new), H(!new), R(!new)>(s: State<K, H, R>, i: nat, key: K)
    requires Inv(s) && key in s.rows && s.rows[key].status.Completed? && i !in s.runs
    ensures Replays(Do(s, Begin(i, Some(key), s.rows[key].hash)), i, s.rows[key].response)
  {
    forall j | j in s.runs && Claimed(s.runs[j]) ensures s.runs[j].key != Some(key) {
      assert RunOk(s, s.runs[j]);
    }
  }

  lemma {:induction false} RunsOn<K(!new), H(!new), R(!new)>(s: State<K, H, R>, acts: seq<Action<K, H, R>>, a: Action<K, H, R>)
    requires CanRun(s, acts) && Enabled(Run(s, acts), a)
    ensures CanRun(s, acts + [a]) && Run(s, acts + [a]) == Do(Run(s, acts), a)
    decreases |acts|
  {
    if acts != [] {
      assert (acts + [a])[1..] == acts[1..] + [a];
      RunsOn(Do(s, acts[0]), acts[1..], a);
    } else {
      assert acts + [a] == [a];
    }
  }

  /** A run that asks for what the completed row holds, and has neither claimed nor been refused. */
  ghost predicate Matched<K, H, R(!new)>(s: State<K, H, R>, i: nat, key: K) {
    && i in s.runs && s.runs[i].key == Some(key) && key in s.rows
    && s.rows[key].hash == s.runs[i].hash && s.rows[key].status.Completed?
    && var p := s.runs[i].phase;
       p.Ready? || p.Conflicted? || p == Replaying(s.rows[key].response) || p == Returned(s.rows[key].response) || p.Ended?
  }

  lemma DoKeepsMatched<K(!new), H(!new), R(!new)>(s: State<K, H, R>, a: Action<K, H, R>, i: nat, key: K)
    requires Inv(s) && Enabled(s, a) && NoStampDue(s, key) && Matched(s, i, key)
    ensures Matched(Do(s, a), i, key)
  {
    DoKeepsCompleted(s, a, key);
    if a.id != i {
      OthersStay(s, a, i);
    }
  }

  /** The next statement of a run that retries. */
  function NextOfRetry<K, H, R>(i: nat, p: Phase<R>): Action<K, H, R> {
    if p.Ready? then Claim(i) else if p.Conflicted? then Read(i) else Commit(i)
  }

  /**
   Whatever else runs, and wherever its own statements fall in between, a retry of a completed key with the same payload
   is never made to work again, never refused and never kept waiting: it can always go on, until it has been answered
   with the stored response or has itself failed.
   */
  lemma {:induction false} RetryIsNeverRefused<K(!new), H(!new), R(!new)>(
      s: State<K, H, R>, acts: seq<Action<K, H, R>>, i: nat, key: K)
    requires Inv(s) && CanRun(s, acts)
    requires key in s.rows && s.rows[key].status.Completed? && NoStampDue(s, key)
    requires i in s.runs ==> Matched(s, i, key)
    requires i in Run(s, acts).runs && Run(s, acts).runs[i].key == Some(key) && Run(s, acts).runs[i].hash == s.rows[key].hash
    ensures var t := Run(s, acts);
            && Matched(t, i, key) && t.rows[key] == s.rows[key]
            && (t.runs[i].phase.Returned? || t.runs[i].phase.Ended? || Enabled(t, NextOfRetry(i, t.runs[i].phase)))
    decreases |acts|
  {
    if acts == [] {
      forall j | j in s.runs && Claimed(s.runs[j]) ensures s.runs[j].key != Some(key) {
        assert RunOk(s, s.runs[j]);
      }
    } else {
      var a, t := acts[0], Do(s, acts[0]);
      DoKeepsInv(s, a);
      DoKeepsCompleted(s, a, key);
      if i in s.runs {
        DoKeepsMatched(s, a, i, key);
      } else if i in t.runs {
        IdentityIsKept(t, acts[1..], i);
      }
      RetryIsNeverRefused(t, acts[1..], i, key);
    }
  }

  lemma {:induction false} IdentityIsKept<K(!new), H(!new), R(!new)>(s: State<K, H, R>, acts: seq<Action<K, H, R>>, i: nat)
    requires CanRun(s, acts) && i in s.runs
    ensures i in Run(s, acts).runs && Run(s, acts).runs[i].key == s.runs[i].key && Run(s, acts).runs[i].hash == s.runs[i].hash
    decreases |acts|
  {
    if acts != [] {
      if acts[0].id != i {
        OthersStay(s, acts[0], i);
      }
      IdentityIsKept(Do(s, acts[0]), acts[1..], i);
    }
  }

  // ---------------------------------------------------------------- what a crash leaves behind

  lemma {:induction false} FinishedIsForEver<K(!new), H(!new), R(!new)>(s: State<K, H, R>, acts: seq<Action<K, H, R>>, i: nat)
    requires CanRun(s, acts) && i in s.runs && Finished(s.runs[i].phase)
    ensures i in Run(s, acts).runs && Run(s, acts).runs[i] == s.runs[i]
    decreases |acts|
  {
    if acts != [] {
      FinishedIsForEver(Do(s, acts[0]), acts[1..], i);
    }
  }

  /**
   A run that crashes before its commit leaves no trace: the rows are as they were, nobody waits for its claim any longer,
   and it never stamps or does anything else, whatever runs next.
   */
  lemma CrashLeavesNoTrace<K(!new), H(!new), R(!new)>(s: State<K, H, R>, acts: seq<Action<K, H, R>>, i: nat)
    requires Inv(s) && Enabled(s, Crash(i)) && CanRun(Do(s, Crash(i)), acts)
    ensures Do(s, Crash(i)).rows == s.rows
    ensures Claimed(s.runs[i]) ==> Unclaimed(Do(s, Crash(i)), s.runs[i].key)
    ensures i in Run(Do(s, Crash(i)), acts).runs && Run(Do(s, Crash(i)), acts).runs[i].phase.Ended?
  {
    assert RunOk(s, s.runs[i]);
    FinishedIsForEver(Do(s, Crash(i)), acts, i);
  }

  // ---------------------------------------------------------------- when a key is spoiled

  /**
   The condition is exact: if a rolled-back run still owes its stamp, the next statement of that run turns the
   completed row into a failed one, and from then on every run under the key is refused.
   */
  lemma LateStampSpoilsReplay<K(!new), H(!new), R(!new)>(s: State<K, H, R>, key: K, i: nat)
    requires Inv(s) && key in s.rows
    requires i in s.runs && s.runs[i].phase.Stamping? && s.runs[i].key == Some(key)
    ensures Enabled(s, Stamp(i)) && key in Do(s, Stamp(i)).rows && Do(s, Stamp(i)).rows[key].status.Failed?
    ensures forall acts | CanRun(Do(s, Stamp(i)), acts) ::
              key in Run(Do(s, Stamp(i)), acts).rows && Run(Do(s, Stamp(i)), acts).rows[key].status.Failed?
  {
    var t := Do(s, Stamp(i));
    DoKeepsInv(s, Stamp(i));
    forall acts | CanRun(t, acts) ensures key in Run(t, acts).rows && Run(t, acts).rows[key].status.Failed? {
      FailedIsFinal(t, acts, key);
    }
  }

  lemma {:induction false} FailedIsFinal<K(!new), H(!new), R(!new)>(
      s: State<K, H, R>, acts: seq<Action<K, H, R>>, key: K)
    requires Inv(s) && CanRun(s, acts) && key in s.rows && s.rows[key].status.Failed?
    ensures key in Run(s, acts).rows && Run(s, acts).rows[key] == s.rows[key].(response := Run(s, acts).rows[key].response)
    decreases |acts|
  {
    if acts != [] {
      DoKeepsInv(s, acts[0]);
      FailedIsFinal(Do(s, acts[0]), acts[1..], key);
    }
  }

  /** Such a run exists: 0 claims and rolls back, 1 retries and commits, then the stamp of 0 lands on the row of 1. */
  lemma LateStampHappens<K(!new), H(!new), R(!new)>(key: K, hash: H, response: R)
    returns (before: seq<Action<K, H, R>>)
    ensures CanRun(Init(), before) && key in Run(Init(), before).rows
    ensures Run(Init(), before).rows[key] == Row(hash, Completed, Response(response))
    ensures !NoStampDue(Run(Init(), before), key)
  {
    before := [Begin(0, Some(key), hash), Claim(0), Fail(0), Begin(1, Some(key), hash), Claim(1),
               Finalize(1, response), Commit(1)];
    var s0: State<K, H, R> := Init();
    var s1 := Do(s0, before[0]);
    var s2 := Do(s1, before[1]);
    var s3 := Do(s2, before[2]);
    var s4 := Do(s3, before[3]);
    var s5 := Do(s4, before[4]);
    var s6 := Do(s5, before[5]);
    var s7 := Do(s6, before[6]);
    Steps(s6, before[6..]); Steps(s5, before[5..]); Steps(s4, before[4..]); Steps(s3, before[3..]);
    Steps(s2, before[2..]); Steps(s1, before[1..]); Steps(s0, before);
    assert s7.runs[0].phase.Stamping?;
  }

  lemma Steps<K(!new), H(!new), R(!new)>(s: State<K, H, R>, acts: seq<Action<K, H, R>>)
    requires acts != [] && Enabled(s, acts[0]) && CanRun(Do(s, acts[0]), acts[1..])
    ensures CanRun(s, acts) && Run(s, acts) == Run(Do(s, acts[0]), acts[1..])
  {
  }
}
