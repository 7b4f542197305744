/**
 Campaign sends. sendCampaign uses the idempotency ledger without opening a transaction, so every statement, the claim
 included, is durable at once. Each action below is one statement of one run, or the call of the mail gateway, and
 any number of runs interleave.
 */
module Campaigns {
  import opened Prelude

  /** The key of one audience member under one scope. */
  datatype Key = Key(scope: string, user: nat)

  /** The request: what the ledger compares. */
  datatype Send = Send(campaign: nat, user: nat, channel: string)

  datatype SendStatus = Pending | Sent | Failed

  datatype SendRow = SendRow(send: Send, status: SendStatus)

  datatype Status = InProgress | Completed(row: nat) | Spoiled

  datatype Entry = Entry(request: Send, status: Status)

  datatype Pc =
    | Claiming | Reading
    | Preparing      // campaign, user, account and template are looked up, then the pending row is inserted
    | Delivering | Marking | Counting | Completing
    | MarkingFailed | Stamping   // the catch block
    | Done | Replayed(row: nat) | Over

  /** `row` is the inserted send row, `claimed` that the run inserted the ledger entry. */
  datatype Worker = Worker(key: Option<Key>, send: Send, pc: Pc, claimed: bool, row: Option<nat>)

  /** `deliveries` lists the runs whose message went out, `counted` those that raised the campaign's send count. */
  datatype State = State(entries: map<Key, Entry>, sends: seq<SendRow>, deliveries: seq<nat>, counted: seq<nat>,
                         workers: map<nat, Worker>)

  datatype Action =
    | Begin(id: nat, key: Option<Key>, send: Send)
    | Claim(id: nat)
    | Read(id: nat)
    | Insert(id: nat)
    | Deliver(id: nat)
    | MarkSent(id: nat)
    | Count(id: nat)
    | Complete(id: nat)
    | Throw(id: nat)       // the statement or the gateway fails
    | MarkFailed(id: nat)
    | Stamp(id: nat)
    | Crash(id: nat)       // the process dies, or a statement of the catch block fails

  predicate Finished(pc: Pc) { pc.Done? || pc.Replayed? || pc.Over? }

  predicate AtWork(pc: Pc) { pc.Preparing? || pc.Delivering? || pc.Marking? || pc.Counting? || pc.Completing? }

  predicate At(s: State, id: nat, pc: Pc) { id in s.workers && s.workers[id].pc == pc }

  predicate Enabled(s: State, a: Action) {
    match a
    case Begin(id, _, _) => id !in s.workers
    case Claim(id) => At(s, id, Claiming)
    case Read(id) => At(s, id, Reading) && s.workers[id].key.Some?
    case Insert(id) => At(s, id, Preparing)
    case Deliver(id) => At(s, id, Delivering)
    case MarkSent(id) => At(s, id, Marking) && s.workers[id].row.Some? && s.workers[id].row.value < |s.sends|
    case Count(id) => At(s, id, Counting)
    case Complete(id) => At(s, id, Completing) && s.workers[id].row.Some?
    case Throw(id) => id in s.workers && (AtWork(s.workers[id].pc) || s.workers[id].pc.Claiming? || s.workers[id].pc.Reading?)
    case MarkFailed(id) => At(s, id, MarkingFailed) && s.workers[id].row.Some? && s.workers[id].row.value < |s.sends|
    case Stamp(id) => At(s, id, Stamping) && s.workers[id].key.Some?
    case Crash(id) => id in s.workers && !Finished(s.workers[id].pc)
  }

  function Goto(s: State, id: nat, pc: Pc): State
    requires id in s.workers
  {
    s.(workers := s.workers[id := s.workers[id].(pc := pc)])
  }

  /** What the SELECT after a conflict leads to. The first case is the code's "no existing row" branch. */
  function Outcome(entries: map<Key, Entry>, key: Key, send: Send): Pc {
    if key !in entries then Preparing
    else if entries[key].request != send then Over
    else if entries[key].status.Completed? then Replayed(entries[key].status.row)
    else Over
  }

  function WithStatus(entries: map<Key, Entry>, key: Option<Key>, status: Status): map<Key, Entry> {
    if key.None? || key.value !in entries then entries
    else entries[key.value := entries[key.value].(status := status)]
  }

  /** Where the catch block starts. */
  function Catch(w: Worker): Pc { if w.row.Some? then MarkingFailed else if w.claimed then Stamping else Over }

  function Do(s: State, a: Action): State
    requires Enabled(s, a)
  {
    match a
    case Begin(id, key, send) => s.(workers := s.workers[id := Worker(key, send, Claiming, false, None)])
    case Claim(id) =>
      var w := s.workers[id];
      if w.key.None? then Goto(s, id, Preparing)
      else if w.key.value in s.entries then Goto(s, id, Reading)
      else s.(entries := s.entries[w.key.value := Entry(w.send, InProgress)],
              workers := s.workers[id := w.(pc := Preparing, claimed := true)])
    case Read(id) => Goto(s, id, Outcome(s.entries, s.workers[id].key.value, s.workers[id].send))
    case Insert(id) =>
      var w := s.workers[id];
      s.(sends := s.sends + [SendRow(w.send, Pending)],
         workers := s.workers[id := w.(pc := Delivering, row := Some(|s.sends|))])
    case Deliver(id) => Goto(s.(deliveries := s.deliveries + [id]), id, Marking)
    case MarkSent(id) =>
      var row := s.workers[id].row.value;
      Goto(s.(sends := s.sends[row := s.sends[row].(status := Sent)]), id, Counting)
    case Count(id) => Goto(s.(counted := s.counted + [id]), id, Completing)
    case Complete(id) =>
      var w := s.workers[id];
      Goto(s.(entries := WithStatus(s.entries, w.key, Completed(w.row.value))), id, Done)
    case Throw(id) => Goto(s, id, Catch(s.workers[id]))
    case MarkFailed(id) =>
      var w := s.workers[id];
      Goto(s.(sends := s.sends[w.row.value := s.sends[w.row.value].(status := Failed)]), id,
           if w.claimed then Stamping else Over)
    case Stamp(id) => Goto(s.(entries := WithStatus(s.entries, s.workers[id].key, Spoiled)), id, Over)
    case Crash(id) => Goto(s, id, Over)
  }

  function Init(): State { State(map[], [], [], [], map[]) }

  ghost predicate CanRun(acts: seq<Action>)
    decreases |acts|, 0
  {
    acts != [] ==> CanRun(acts[..|acts| - 1]) && Enabled(Run(acts[..|acts| - 1]), acts[|acts| - 1])
  }

  ghost function Run(acts: seq<Action>): State
    requires CanRun(acts)
    decreases |acts|, 1
  {
    if acts == [] then Init() else Do(Run(acts[..|acts| - 1]), acts[|acts| - 1])
  }

  lemma {:induction false} RunAppend(acts: seq<Action>, a: Action)
    requires CanRun(acts) && Enabled(Run(acts), a)
    ensures CanRun(acts + [a]) && Run(acts + [a]) == Do(Run(acts), a)
  {
    assert (acts + [a])[..|acts|] == acts;
  }

  // ---------------------------------------------------------------- the invariant

  ghost predicate ClaimedBy(s: State, id: nat, key: Key) {
    id in s.workers && s.workers[id].claimed && s.workers[id].key == Some(key)
  }

  ghost predicate OneClaimer(s: State) {
    forall i, j, key {:trigger ClaimedBy(s, i, key), ClaimedBy(s, j, key)} | ClaimedBy(s, i, key) && ClaimedBy(s, j, key) ::
      i == j
  }

  ghost predicate RowSent(s: State, row: nat, send: Send) { row < |s.sends| && s.sends[row] == SendRow(send, Sent) }

  /** The run that claimed the key sent this message and its row says so. */
  ghost predicate SentBy(s: State, id: nat, key: Key, send: Send, row: nat) {
    ClaimedBy(s, id, key) && s.workers[id].send == send && s.workers[id].row == Some(row) && s.workers[id].pc.Done?
  }

  ghost predicate WorkerOk(s: State, id: nat, w: Worker) {
    && (w.claimed ==> w.key.Some? && w.key.value in s.entries && s.entries[w.key.value].request == w.send)
    && (w.key.Some? && AtWork(w.pc) ==> w.claimed)
    && (w.pc.Stamping? ==> w.claimed)
    && (w.pc.MarkingFailed? ==> w.row.Some? && (w.key.Some? ==> w.claimed))
    && (w.pc.Claiming? || w.pc.Reading? || w.pc.Preparing? ==> w.row.None? && id !in s.deliveries && id !in s.counted)
    && (w.pc.Claiming? || w.pc.Reading? ==> !w.claimed)
    && (w.pc.Reading? ==> w.key.Some? && w.key.value in s.entries)
    && (w.pc.Delivering? ==> id !in s.deliveries)
    && (w.pc.Delivering? || w.pc.Marking? || w.pc.Counting? || w.pc.Completing? || w.pc.Done? ==> w.row.Some?)
    && (w.row.Some? ==> w.row.value < |s.sends| && s.sends[w.row.value].send == w.send)
    && (w.pc.Marking? || w.pc.Counting? || w.pc.Completing? || w.pc.Done? ==> id in s.deliveries)
    && (w.pc.Delivering? || w.pc.Marking? || w.pc.Counting? ==> id !in s.counted)
    && (w.pc.Completing? || w.pc.Done? ==> id in s.counted)
    && (w.pc.Counting? || w.pc.Completing? || w.pc.Done? ==> RowSent(s, w.row.value, w.send))
    && (w.row.Some? && (w.pc.Delivering? || w.pc.Marking?) ==> s.sends[w.row.value].status.Pending?)
    && (w.row.Some? && w.pc.Stamping? ==> s.sends[w.row.value].status.Failed?)
    && (w.row.Some? && s.sends[w.row.value].status.Sent? ==> id in s.deliveries)
    && (w.row.Some? && s.sends[w.row.value].status.Failed? ==> w.pc.Stamping? || w.pc.Over?)
    && (w.key.Some? && id in s.deliveries ==> w.claimed)
    && (w.pc.Replayed? ==>
          w.key.Some? && w.key.value in s.entries && s.entries[w.key.value] == Entry(w.send, Completed(w.pc.row)))
  }

  ghost predicate EntryOk(s: State, key: Key)
    requires key in s.entries
  {
    var e := s.entries[key];
    && (exists id :: ClaimedBy(s, id, key))
    && (e.status.Completed? ==> exists id :: SentBy(s, id, key, e.request, e.status.row))
  }

  ghost predicate RowsOwned(s: State) {
    forall i, j | i in s.workers && j in s.workers && s.workers[i].row.Some? && s.workers[i].row == s.workers[j].row ::
      i == j
  }

  ghost predicate NoDoubles(ids: seq<nat>) { forall p, q | 0 <= p < q < |ids| :: ids[p] != ids[q] }

  ghost predicate Inv(s: State) {
    && OneClaimer(s) && RowsOwned(s) && NoDoubles(s.deliveries) && NoDoubles(s.counted)
    && (forall id | id in s.deliveries :: id in s.workers)
    && (forall id | id in s.counted :: id in s.workers && id in s.deliveries)
    && (forall id {:trigger WorkerOk(s, id, s.workers[id])} | id in s.workers :: WorkerOk(s, id, s.workers[id]))
    && (forall key {:trigger EntryOk(s, key)} | key in s.entries :: EntryOk(s, key))
  }

  lemma OthersStay(s: State, a: Action, j: nat)
    requires Enabled(s, a) && j in s.workers && j != a.id
    ensures j in Do(s, a).workers && Do(s, a).workers[j] == s.workers[j]
  {
  }

  lemma WorkersAfter(s: State, a: Action)
    requires Enabled(s, a)
    ensures Do(s, a).workers.Keys == s.workers.Keys + {a.id}
    ensures a.Begin? || a.id in s.workers
  {
  }

  /** A run keeps its key, its request and its row, and claims at most once. */
  lemma IdentityKept(s: State, a: Action)
    requires Enabled(s, a) && a.id in s.workers
    ensures var w, w' := s.workers[a.id], Do(s, a).workers[a.id];
            && w'.key == w.key && w'.send == w.send
            && (w'.claimed == (w.claimed || (a.Claim? && w.key.Some? && w.key.value !in s.entries)))
            && w'.row == if a.Insert? then Some(|s.sends|) else w.row
  {
  }

  /** The entries change only under the key of the run that takes the step. */
  lemma OtherEntriesStay(s: State, a: Action, key: Key)
    requires Enabled(s, a) && key in s.entries
    ensures key in Do(s, a).entries && Do(s, a).entries[key].request == s.entries[key].request
    ensures a.Begin? || s.workers[a.id].key != Some(key) || !(a.Complete? || a.Stamp?) ==>
              Do(s, a).entries[key] == s.entries[key]
  {
  }

  lemma OtherRowsStay(s: State, a: Action, row: nat)
    requires Enabled(s, a) && row < |s.sends|
    ensures row < |Do(s, a).sends| && Do(s, a).sends[row].send == s.sends[row].send
    ensures a.Begin? || s.workers[a.id].row != Some(row) || !(a.MarkSent? || a.MarkFailed?) ==>
              Do(s, a).sends[row] == s.sends[row]
  {
  }

  lemma ListsAfter(s: State, a: Action)
    requires Enabled(s, a)
    ensures Do(s, a).deliveries == s.deliveries + if a.Deliver? then [a.id] else []
    ensures Do(s, a).counted == s.counted + if a.Count? then [a.id] else []
  {
  }

  /** A run that does not take the step stays in order. */
  lemma OtherWorkerOk(s: State, a: Action, id: nat)
    requires Inv(s) && Enabled(s, a) && id in s.workers && id != a.id
    ensures WorkerOk(Do(s, a), id, s.workers[id])
  {
    hide Do, OneClaimer, EntryOk, Catch, Outcome, NoDoubles;
    var w := s.workers[id];
    assert WorkerOk(s, id, w);
    ListsAfter(s, a);
    if w.row.Some? {
      OtherRowsStay(s, a, w.row.value);
      assert !a.Begin? ==> s.workers[a.id].row != w.row;
    }
    if w.key.Some? && w.key.value in s.entries {
      OtherEntriesStay(s, a, w.key.value);
      if s.entries[w.key.value].status.Completed? {
        CompletedStays(s, a, w.key.value);
      }
    }
  }

  /** A completed entry is final: its claimer has nothing left to do. */
  lemma CompletedStays(s: State, a: Action, key: Key)
    requires Inv(s) && Enabled(s, a) && key in s.entries && s.entries[key].status.Completed?
    ensures key in Do(s, a).entries && Do(s, a).entries[key] == s.entries[key]
  {
    hide Do;
    OtherEntriesStay(s, a, key);
    assert EntryOk(s, key);
    var id :| SentBy(s, id, key, s.entries[key].request, s.entries[key].status.row);
    if !a.Begin? && s.workers[a.id].key == Some(key) {
      assert WorkerOk(s, a.id, s.workers[a.id]);
      assert a.Complete? || a.Stamp? ==> ClaimedBy(s, a.id, key);
    }
  }

  /** The run that takes the step stays in order. */
  lemma SteppingWorkerOk(s: State, a: Action)
    requires Inv(s) && Enabled(s, a)
    ensures WorkerOk(Do(s, a), a.id, Do(s, a).workers[a.id])
  {
    hide OneClaimer, EntryOk, NoDoubles, RowsOwned;
    if !a.Begin? {
      assert WorkerOk(s, a.id, s.workers[a.id]);
    }
  }

  lemma ClaimsAfter(s: State, a: Action, id: nat, key: Key)
    requires Inv(s) && Enabled(s, a)
    ensures ClaimedBy(s, id, key) ==> ClaimedBy(Do(s, a), id, key)
    ensures ClaimedBy(Do(s, a), id, key) && !ClaimedBy(s, id, key) ==> id == a.id && a.Claim? && key !in s.entries
    ensures key in Do(s, a).entries && key !in s.entries ==> ClaimedBy(Do(s, a), a.id, key)
  {
    hide OneClaimer, EntryOk, NoDoubles, RowsOwned, WorkerOk;
    WorkersAfter(s, a);
    if id != a.id && id in s.workers {
      OthersStay(s, a, id);
    }
    if a.id in s.workers {
      IdentityKept(s, a);
    }
  }

  lemma OneClaimerStays(s: State, a: Action)
    requires Inv(s) && Enabled(s, a)
    ensures OneClaimer(Do(s, a))
  {
    hide Do, ClaimedBy, NoDoubles, RowsOwned, EntryOk;
    var t := Do(s, a);
    forall i, j, key | ClaimedBy(t, i, key) && ClaimedBy(t, j, key) ensures i == j {
      ClaimsAfter(s, a, i, key);
      ClaimsAfter(s, a, j, key);
      ClaimedHasEntry(s, i, key);
      ClaimedHasEntry(s, j, key);
    }
  }

  lemma ClaimedHasEntry(s: State, id: nat, key: Key)
    requires Inv(s)
    ensures ClaimedBy(s, id, key) ==> key in s.entries
  {
    assert id in s.workers ==> WorkerOk(s, id, s.workers[id]);
  }

  lemma RowsOwnedStay(s: State, a: Action)
    requires Inv(s) && Enabled(s, a)
    ensures RowsOwned(Do(s, a))
  {
    hide Do, OneClaimer, NoDoubles, EntryOk;
    var t := Do(s, a);
    WorkersAfter(s, a);
    if a.id in s.workers {
      IdentityKept(s, a);
    }
    BeginIsClean(s, a);
    forall i, j | i in t.workers && j in t.workers && t.workers[i].row.Some? && t.workers[i].row == t.workers[j].row
      ensures i == j
    {
      if i != a.id {
        OthersStay(s, a, i);
        assert WorkerOk(s, i, s.workers[i]);
      }
      if j != a.id {
        OthersStay(s, a, j);
        assert WorkerOk(s, j, s.workers[j]);
      }
    }
  }

  lemma BeginIsClean(s: State, a: Action)
    requires Enabled(s, a)
    ensures a.Begin? ==> a.id in Do(s, a).workers && Do(s, a).workers[a.id] == Worker(a.key, a.send, Claiming, false, None)
  {
  }

  lemma ListsStayClean(s: State, a: Action)
    requires Inv(s) && Enabled(s, a)
    ensures var t := Do(s, a);
            && NoDoubles(t.deliveries) && NoDoubles(t.counted)
            && (forall id | id in t.deliveries :: id in t.workers)
            && (forall id | id in t.counted :: id in t.workers && id in t.deliveries)
  {
    hide Do, OneClaimer, RowsOwned, EntryOk;
    ListsAfter(s, a);
    WorkersAfter(s, a);
    assert a.Deliver? || a.Count? ==> WorkerOk(s, a.id, s.workers[a.id]);
  }

  lemma EntryOkAfter(s: State, a: Action, key: Key)
    requires Inv(s) && Enabled(s, a) && key in Do(s, a).entries
    ensures EntryOk(Do(s, a), key)
  {
    hide Do, OneClaimer, RowsOwned, NoDoubles;
    var t := Do(s, a);
    if key !in s.entries {
      ClaimsAfter(s, a, a.id, key);
      NewEntry(s, a, key);
    } else {
      assert EntryOk(s, key);
      var id :| ClaimedBy(s, id, key);
      ClaimsAfter(s, a, id, key);
      OtherEntriesStay(s, a, key);
      if t.entries[key].status.Completed? {
        var _ := CompletedIsSent(s, a, key);
      }
    }
  }

  lemma NewEntry(s: State, a: Action, key: Key)
    requires Enabled(s, a) && key in Do(s, a).entries && key !in s.entries
    ensures Do(s, a).entries[key].status.InProgress?
  {
  }

  lemma CompletedIsSent(s: State, a: Action, key: Key) returns (id: nat)
    requires Inv(s) && Enabled(s, a) && key in s.entries && key in Do(s, a).entries && Do(s, a).entries[key].status.Completed?
    ensures SentBy(Do(s, a), id, key, Do(s, a).entries[key].request, Do(s, a).entries[key].status.row)
  {
    hide OneClaimer, RowsOwned, NoDoubles, Catch, Outcome;
    assert EntryOk(s, key);
    if s.entries[key].status.Completed? {
      CompletedStays(s, a, key);
      id :| SentBy(s, id, key, s.entries[key].request, s.entries[key].status.row);
    } else {
      id := a.id;
      assert WorkerOk(s, a.id, s.workers[a.id]);
    }
  }

  lemma DoKeepsInv(s: State, a: Action)
    requires Inv(s) && Enabled(s, a)
    ensures Inv(Do(s, a))
  {
    hide Do, OneClaimer, RowsOwned, NoDoubles, EntryOk, WorkerOk;
    var t := Do(s, a);
    OneClaimerStays(s, a);
    RowsOwnedStay(s, a);
    ListsStayClean(s, a);
    WorkersAfter(s, a);
    forall id | id in t.workers ensures WorkerOk(t, id, t.workers[id]) {
      if id == a.id {
        SteppingWorkerOk(s, a);
      } else {
        OtherWorkerOk(s, a, id);
        OthersStay(s, a, id);
      }
    }
    forall key | key in t.entries ensures EntryOk(t, key) {
      EntryOkAfter(s, a, key);
    }
  }

  lemma {:induction false} RunKeepsInv(acts: seq<Action>)
    requires CanRun(acts)
    ensures Inv(Run(acts))
  {
    if acts != [] {
      RunKeepsInv(acts[..|acts| - 1]);
      DoKeepsInv(Run(acts[..|acts| - 1]), acts[|acts| - 1]);
    }
  }

  // ---------------------------------------------------------------- results

  /** Under any interleaving, interrupted anywhere, at most one message goes out for a key. */
  lemma EachKeySendsAtMostOnce(acts: seq<Action>, p: nat, q: nat)
    requires CanRun(acts) && p < |Run(acts).deliveries| && q < |Run(acts).deliveries|
    ensures var s := Run(acts);
            var i, j := s.deliveries[p], s.deliveries[q];
            i in s.workers && j in s.workers && (s.workers[i].key.Some? && s.workers[i].key == s.workers[j].key ==> p == q)
  {
    RunKeepsInv(acts);
    var s := Run(acts);
    var i, j := s.deliveries[p], s.deliveries[q];
    assert WorkerOk(s, i, s.workers[i]) && WorkerOk(s, j, s.workers[j]);
    assert s.workers[i].key.Some? ==> ClaimedBy(s, i, s.workers[i].key.value);
    assert s.workers[j].key.Some? ==> ClaimedBy(s, j, s.workers[j].key.value);
  }

  /** How many of the messages went out for the key. */
  function Sendings(workers: map<nat, Worker>, deliveries: seq<nat>, key: Key): nat {
    if deliveries == [] then 0
    else
      var n := |deliveries| - 1;
      Sendings(workers, deliveries[..n], key) +
      if IsFor(workers, deliveries[n], key) then 1 else 0
  }

  /** A member of an audience is sent to at most once under one scope, however many runs there are and wherever they stop. */
  lemma EachMemberSentToAtMostOnce(acts: seq<Action>, scope: string, user: nat)
    requires CanRun(acts)
    ensures Sendings(Run(acts).workers, Run(acts).deliveries, Key(scope, user)) <= 1
  {
    var s := Run(acts);
    forall p, q | 0 <= p < q < |s.deliveries|
      ensures !(IsFor(s.workers, s.deliveries[p], Key(scope, user)) && IsFor(s.workers, s.deliveries[q], Key(scope, user)))
    {
      EachKeySendsAtMostOnce(acts, p, q);
    }
    AtMostOne(s.workers, s.deliveries, Key(scope, user));
  }

  predicate IsFor(workers: map<nat, Worker>, id: nat, key: Key) { id in workers && workers[id].key == Some(key) }

  lemma {:induction false} AtMostOne(workers: map<nat, Worker>, ids: seq<nat>, key: Key)
    requires forall p, q | 0 <= p < q < |ids| :: !(IsFor(workers, ids[p], key) && IsFor(workers, ids[q], key))
    ensures Sendings(workers, ids, key) <= 1
    ensures (forall p | 0 <= p < |ids| :: !IsFor(workers, ids[p], key)) ==> Sendings(workers, ids, key) == 0
  {
    if ids != [] {
      AtMostOne(workers, ids[..|ids| - 1], key);
    }
  }

  /** A message has gone out only for a key that is in the ledger. */
  lemma SentIsEntered(acts: seq<Action>, key: Key)
    requires CanRun(acts) && key !in Run(acts).entries
    ensures forall id | id in Run(acts).deliveries :: id in Run(acts).workers && Run(acts).workers[id].key != Some(key)
  {
    RunKeepsInv(acts);
    var s := Run(acts);
    forall id | id in s.deliveries ensures id in s.workers && s.workers[id].key != Some(key) {
      assert WorkerOk(s, id, s.workers[id]);
    }
  }

  /** A run that is answered from the ledger is told of a row whose message did go out, for the same request. */
  lemma ReplayMeansSent(acts: seq<Action>, i: nat) returns (c: nat)
    requires CanRun(acts) && i in Run(acts).workers && Run(acts).workers[i].pc.Replayed?
    ensures var s := Run(acts);
            s.workers[i].key.Some? && SentBy(s, c, s.workers[i].key.value, s.workers[i].send, s.workers[i].pc.row) &&
            c in s.deliveries && c in s.counted && RowSent(s, s.workers[i].pc.row, s.workers[i].send) && i !in s.deliveries
  {
    RunKeepsInv(acts);
    var s := Run(acts);
    var w := s.workers[i];
    assert WorkerOk(s, i, w);
    assert EntryOk(s, w.key.value);
    assert ClaimedBy(s, i, w.key.value) <==> w.claimed;
    c :| SentBy(s, c, w.key.value, w.send, w.pc.row);
    assert WorkerOk(s, c, s.workers[c]);
  }

  /**
   The send row of a run says what has become of it: sent only if its message went out, and whenever the run goes on after
   that was noted; failed only if the run has ended without success; pending while it is still to be delivered.
   */
  lemma RowTellsFate(acts: seq<Action>, id: nat)
    requires CanRun(acts) && id in Run(acts).workers && Run(acts).workers[id].row.Some?
    ensures var s := Run(acts);
            var w := s.workers[id];
            && w.row.value < |s.sends| && s.sends[w.row.value].send == w.send
            && var status := s.sends[w.row.value].status;
               && (status.Sent? ==> id in s.deliveries)
               && (w.pc.Counting? || w.pc.Completing? || w.pc.Done? ==> status.Sent?)
               && (status.Failed? ==> w.pc.Stamping? || w.pc.Over?)
               && (w.pc.Stamping? ==> status.Failed?)
               && (w.pc.Delivering? || w.pc.Marking? ==> status.Pending?)
  {
    RunKeepsInv(acts);
    assert WorkerOk(Run(acts), id, Run(acts).workers[id]);
  }

  /** A campaign's send count never exceeds its messages. */
  lemma CountedWereSent(acts: seq<Action>)
    requires CanRun(acts)
    ensures |Run(acts).counted| <= |Run(acts).deliveries|
    ensures forall id | id in Run(acts).counted :: id in Run(acts).deliveries
  {
    RunKeepsInv(acts);
    Fewer(Run(acts).counted, Run(acts).deliveries);
  }

  lemma {:induction false} Fewer(a: seq<nat>, b: seq<nat>)
    requires NoDoubles(a) && forall id | id in a :: id in b
    ensures |a| <= |b|
  {
    if a != [] {
      assert a[0] in a && forall id | id in a[1..] :: id in a;
      var p :| 0 <= p < |b| && b[p] == a[0];
      var rest := b[..p] + b[p + 1..];
      forall id | id in a[1..] ensures id in rest {
        var q :| 0 <= q < |b| && b[q] == id;
        assert id != a[0];
        assert rest[if q < p then q else q - 1] == id;
      }
      Fewer(a[1..], rest);
    }
  }

  /** The run that claimed the key has ended: sent, failed or interrupted. */
  ghost predicate Closed(s: State, key: Key) {
    exists id :: ClaimedBy(s, id, key) && Finished(s.workers[id].pc)
  }

  lemma ClosedStays(s: State, a: Action, key: Key)
    requires Inv(s) && Enabled(s, a) && Closed(s, key)
    ensures Closed(Do(s, a), key) && key in s.entries && key in Do(s, a).entries && Do(s, a).entries[key] == s.entries[key]
    ensures a.Deliver? ==> s.workers[a.id].key != Some(key)
  {
    hide Do, RowsOwned, NoDoubles, EntryOk;
    var id :| ClaimedBy(s, id, key) && Finished(s.workers[id].pc);
    assert WorkerOk(s, id, s.workers[id]);
    OtherEntriesStay(s, a, key);
    assert id != a.id;
    OthersStay(s, a, id);
    assert ClaimedBy(Do(s, a), id, key);
    if !a.Begin? && s.workers[a.id].key == Some(key) {
      assert WorkerOk(s, a.id, s.workers[a.id]);
      assert !ClaimedBy(s, a.id, key);
    }
  }

  /**
   Once the claiming run has ended, nothing that runs later changes the entry or sends for the key. So a member whose
   send failed or was interrupted is not sent to by any re-run under the same scope.
   */
  lemma {:induction false} ClosedIsForEver(acts: seq<Action>, n: nat, key: Key)
    requires n <= |acts| && CanRun(acts) && CanRun(acts[..n]) && Closed(Run(acts[..n]), key)
    ensures var s, t := Run(acts[..n]), Run(acts);
            && Closed(t, key) && key in s.entries && key in t.entries && t.entries[key] == s.entries[key]
            && s.deliveries <= t.deliveries
            && forall p | |s.deliveries| <= p < |t.deliveries| ::
                 t.deliveries[p] in t.workers && t.workers[t.deliveries[p]].key != Some(key)
  {
    hide Do;
    RunKeepsInv(acts);
    if n == |acts| {
      assert acts[..n] == acts;
      ClosedHasEntry(Run(acts), key);
    } else {
      var before := acts[..|acts| - 1];
      assert before[..n] == acts[..n];
      ClosedIsForEver(before, n, key);
      RunKeepsInv(before);
      ClosedStep(Run(acts[..n]), Run(before), acts[|acts| - 1], key);
    }
  }

  lemma ClosedHasEntry(s: State, key: Key)
    requires Inv(s) && Closed(s, key)
    ensures key in s.entries
  {
    var id :| ClaimedBy(s, id, key) && Finished(s.workers[id].pc);
    ClaimedHasEntry(s, id, key);
  }

  lemma ClosedStep(s: State, t: State, a: Action, key: Key)
    requires Inv(t) && Enabled(t, a) && Closed(t, key) && s.deliveries <= t.deliveries
    requires forall p | |s.deliveries| <= p < |t.deliveries| ::
               t.deliveries[p] in t.workers && t.workers[t.deliveries[p]].key != Some(key)
    ensures var u := Do(t, a);
            && Closed(u, key) && key in t.entries && key in u.entries && u.entries[key] == t.entries[key]
            && s.deliveries <= u.deliveries
            && forall p | |s.deliveries| <= p < |u.deliveries| ::
                 u.deliveries[p] in u.workers && u.workers[u.deliveries[p]].key != Some(key)
  {
    hide Do, Inv, Closed;
    var u := Do(t, a);
    ClosedStays(t, a, key);
    ListsAfter(t, a);
    WorkersAfter(t, a);
    forall p | |s.deliveries| <= p < |u.deliveries|
      ensures u.deliveries[p] in u.workers && u.workers[u.deliveries[p]].key != Some(key)
    {
      var id := u.deliveries[p];
      if id == a.id {
        if a.id in t.workers {
          IdentityKept(t, a);
        }
        assert p < |t.deliveries| ==> id == t.deliveries[p];
      } else {
        assert id == t.deliveries[p];
        OthersStay(t, a, id);
      }
    }
  }
}
