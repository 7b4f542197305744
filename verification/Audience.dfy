/**
 sendCampaign as one uninterrupted call and the loop of sendCampaignToAudience over the pages of a fixed audience.
 The class starts from the tables as any earlier calls have left them, interrupted ones too; its ghost trace shows that
 what it does continues a run of the machine in module Campaigns, so everything proved there holds of it.
 */
module Audience {
  import opened Prelude
  import opened Campaigns

  const PAGE_SIZE := 500
  const CHANNEL := "email"

  function Min(a: nat, b: nat): nat { if a < b then a else b }

  /** Whether the message of a send that throws at this point went out: Some(pc) throws there, None nowhere. */
  predicate GoesOut(fault: Option<Pc>) { fault != Some(Preparing) && fault != Some(Delivering) }

  predicate Works(fault: Option<Pc>) { fault.None? || !AtWork(fault.value) }

  // ---------------------------------------------------------------- what a run over an audience should do

  function FaultOf(faults: map<nat, Pc>, user: nat): Option<Pc> { if user in faults then Some(faults[user]) else None }

  /** The members that get a message: those whose key is new and whose send does not throw before it goes out. */
  function Reached(audience: seq<nat>, scope: string, entries: map<Key, Entry>, faults: map<nat, Pc>): (r: seq<nat>)
    ensures |r| <= |audience|
    ensures (forall u | u in audience :: Key(scope, u) in entries) ==> r == []
    ensures (forall u | u in audience :: Key(scope, u) !in entries && GoesOut(FaultOf(faults, u))) ==> r == audience
  {
    if audience == [] then []
    else
      var last := audience[|audience| - 1];
      Reached(audience[..|audience| - 1], scope, entries, faults) +
      if Key(scope, last) !in entries && GoesOut(FaultOf(faults, last)) then [last] else []
  }

  predicate Succeeds(campaign: nat, user: nat, scope: string, entries: map<Key, Entry>, faults: map<nat, Pc>) {
    var key := Key(scope, user);
    if key in entries then entries[key].request == Send(campaign, user, CHANNEL) && entries[key].status.Completed?
    else Works(FaultOf(faults, user))
  }

  function Successes(
      campaign: nat, audience: seq<nat>, scope: string, entries: map<Key, Entry>, faults: map<nat, Pc>): (n: nat)
    ensures n <= |audience|
  {
    if audience == [] then 0
    else Successes(campaign, audience[..|audience| - 1], scope, entries, faults) +
         if Succeeds(campaign, audience[|audience| - 1], scope, entries, faults) then 1 else 0
  }

  ghost predicate MessageAt(s: State, i: int, send: Send) {
    0 <= i < |s.deliveries| && s.deliveries[i] in s.workers && s.workers[s.deliveries[i]].send == send
  }

  /** One message each has gone out to the members reached, in their order, and no other. */
  ghost predicate Messages(before: State, now: State, campaign: nat, reached: seq<nat>) {
    && |now.deliveries| == |before.deliveries| + |reached| && before.deliveries <= now.deliveries
    && forall p | 0 <= p < |reached| :: MessageAt(now, |before.deliveries| + p, Send(campaign, reached[p], CHANNEL))
  }

  /** Every member visited has its key in the ledger, and entries that were there stay. */
  ghost predicate Entered(before: State, now: State, scope: string, part: seq<nat>) {
    && (forall k | k in before.entries :: k in now.entries && now.entries[k] == before.entries[k])
    && (forall u | u in part :: Key(scope, u) in now.entries)
    && (forall k | k in now.entries :: k in before.entries || (k.scope == scope && k.user in part))
  }

  /** What has been done for the first members of the audience. */
  ghost predicate Dispatched(
      before: State, now: State, campaign: nat, scope: string, faults: map<nat, Pc>, part: seq<nat>) {
    Messages(before, now, campaign, Reached(part, scope, before.entries, faults)) && Entered(before, now, scope, part)
  }

  /** What one call for a member does to what all calls have done so far. */
  ghost predicate Sends(s: State, t: State, id: nat, key: Key, send: Send, fault: Option<Pc>) {
    && key in t.entries
    && (forall k | k != key :: k in t.entries <==> k in s.entries)
    && (forall k | k in s.entries :: k in t.entries && t.entries[k] == s.entries[k])
    && t.deliveries == s.deliveries + (if key !in s.entries && GoesOut(fault) then [id] else [])
    && id in t.workers && t.workers[id].send == send
    && (forall j | j in s.workers :: j in t.workers && t.workers[j] == s.workers[j])
  }

  lemma MessagesOneMore(before: State, s: State, t: State, campaign: nat, reached: seq<nat>, user: nat, id: nat,
                        key: Key, fault: Option<Pc>)
    requires Messages(before, s, campaign, reached) && Sends(s, t, id, key, Send(campaign, user, CHANNEL), fault)
    ensures Messages(before, t, campaign, if key !in s.entries && GoesOut(fault) then reached + [user] else reached)
  {
    var reached' := if key !in s.entries && GoesOut(fault) then reached + [user] else reached;
    forall p | 0 <= p < |reached'| ensures MessageAt(t, |before.deliveries| + p, Send(campaign, reached'[p], CHANNEL)) {
      if p < |reached| {
        assert MessageAt(s, |before.deliveries| + p, Send(campaign, reached[p], CHANNEL));
      }
    }
  }

  lemma EnteredOneMore(before: State, s: State, t: State, scope: string, part: seq<nat>, user: nat, id: nat, send: Send,
                       fault: Option<Pc>)
    requires Entered(before, s, scope, part) && user !in part && Sends(s, t, id, Key(scope, user), send, fault)
    ensures Entered(before, t, scope, part + [user])
    ensures Key(scope, user) in before.entries <==> Key(scope, user) in s.entries
  {
  }

  lemma DispatchedOneMore(before: State, s: State, t: State, campaign: nat, scope: string, faults: map<nat, Pc>,
                          part: seq<nat>, user: nat, id: nat)
    requires Dispatched(before, s, campaign, scope, faults, part) && user !in part
    requires Sends(s, t, id, Key(scope, user), Send(campaign, user, CHANNEL), FaultOf(faults, user))
    ensures Dispatched(before, t, campaign, scope, faults, part + [user])
    ensures Key(scope, user) in before.entries <==> Key(scope, user) in s.entries
  {
    hide Messages, Entered, Sends;
    assert (part + [user])[..|part|] == part;
    MessagesOneMore(before, s, t, campaign, Reached(part, scope, before.entries, faults), user, id, Key(scope, user),
                    FaultOf(faults, user));
    EnteredOneMore(before, s, t, scope, part, user, id, Send(campaign, user, CHANNEL), FaultOf(faults, user));
    var r := Reached(part, scope, before.entries, faults);
    assert r + [] == r;
  }

  lemma KeptEntry(before: State, s: State, campaign: nat, scope: string, faults: map<nat, Pc>, part: seq<nat>, key: Key)
    requires Dispatched(before, s, campaign, scope, faults, part)
    ensures key in before.entries ==> key in s.entries && s.entries[key] == before.entries[key]
  {
  }

  /** A re-run under the same scope, over whatever audience, reaches only members no earlier run has visited. */
  lemma {:induction false} RerunReachesNewcomersOnly(
      before: State, now: State, campaign: nat, scope: string, faults: map<nat, Pc>, audience: seq<nat>,
      again: seq<nat>, faults': map<nat, Pc>)
    requires Dispatched(before, now, campaign, scope, faults, audience)
    ensures forall u | u in Reached(again, scope, now.entries, faults') :: u in again && u !in audience
  {
    if again != [] {
      RerunReachesNewcomersOnly(before, now, campaign, scope, faults, audience, again[..|again| - 1], faults');
    }
  }

  lemma {:induction false} ReachedIsNew(audience: seq<nat>, scope: string, entries: map<Key, Entry>, faults: map<nat, Pc>)
    ensures forall u | u in Reached(audience, scope, entries, faults) :: u in audience && Key(scope, u) !in entries
  {
    if audience != [] {
      ReachedIsNew(audience[..|audience| - 1], scope, entries, faults);
    }
  }

  /**
   Whatever runs came before and wherever they were interrupted, the next one reaches only members to whom nothing has
   gone out under the scope.
   */
  lemma RerunReachesTheUnsentOnly(acts: seq<Action>, again: seq<nat>, scope: string, faults: map<nat, Pc>, user: nat)
    requires CanRun(acts) && user in Reached(again, scope, Run(acts).entries, faults)
    ensures user in again && Sendings(Run(acts).workers, Run(acts).deliveries, Key(scope, user)) == 0
  {
    var s := Run(acts);
    ReachedIsNew(again, scope, s.entries, faults);
    SentIsEntered(acts, Key(scope, user));
    forall p | 0 <= p < |s.deliveries| ensures !IsFor(s.workers, s.deliveries[p], Key(scope, user)) {
      assert s.deliveries[p] in s.deliveries;
    }
    AtMostOne(s.workers, s.deliveries, Key(scope, user));
  }

  lemma NotYet(part: seq<nat>, page: seq<nat>, i: nat)
    requires NoDoubles(part + page) && i < |page|
    ensures page[i] !in part + page[..i]
  {
    var all := part + page;
    assert all[|part| + i] == page[i] && forall p | 0 <= p < |part| + i :: all[p] == (part + page[..i])[p];
  }

  lemma NothingDispatched(s: State, campaign: nat, scope: string, faults: map<nat, Pc>)
    ensures Dispatched(s, s, campaign, scope, faults, [])
    ensures Successes(campaign, [], scope, s.entries, faults) == 0
  {
  }

  lemma SuccessesAppend(
      campaign: nat, part: seq<nat>, user: nat, scope: string, entries: map<Key, Entry>, faults: map<nat, Pc>)
    ensures Successes(campaign, part + [user], scope, entries, faults) ==
            Successes(campaign, part, scope, entries, faults) + if Succeeds(campaign, user, scope, entries, faults) then 1 else 0
  {
    assert (part + [user])[..|part|] == part;
  }

  datatype Outcome = Refused | Finished(total: nat, sent: nat, failed: nat)

  function Decimal(n: nat): string { (if n < 10 then "" else Decimal(n / 10)) + ["0123456789"[n % 10]] }

  /** The scope of an audience: the caller's key, or one made from the campaign. */
  function ScopeFor(campaign: nat, key: string): string { if key != "" then key else "campaign.audience." + Decimal(campaign) }

  lemma {:induction false} DecimalIsInjective(m: nat, n: nat)
    requires Decimal(m) == Decimal(n)
    ensures m == n
  {
    DecimalLength(m);
    DecimalLength(n);
    assert Decimal(m)[|Decimal(m)| - 1] == "0123456789"[m % 10] && Decimal(n)[|Decimal(n)| - 1] == "0123456789"[n % 10];
    assert m % 10 == n % 10;
    if m >= 10 && n >= 10 {
      assert Decimal(m)[..|Decimal(m)| - 1] == Decimal(m / 10) && Decimal(n)[..|Decimal(n)| - 1] == Decimal(n / 10);
      DecimalIsInjective(m / 10, n / 10);
    }
  }

  lemma {:induction false} DecimalLength(n: nat)
    ensures |Decimal(n)| == 1 + (if n < 10 then 0 else |Decimal(n / 10)|) && |Decimal(n)| >= 1
    ensures n >= 10 ==> |Decimal(n)| >= 2
  {
    if n >= 10 {
      DecimalLength(n / 10);
    }
  }

  /** Without a key of the caller, different campaigns have different scopes; with one, the scope is that key. */
  lemma ScopesAreApart(campaign: nat, other: nat, key: string)
    ensures ScopeFor(campaign, "") == ScopeFor(other, "") ==> campaign == other
    ensures key != "" ==> ScopeFor(campaign, key) == key
  {
    var prefix := "campaign.audience.";
    if ScopeFor(campaign, "") == ScopeFor(other, "") {
      assert ScopeFor(campaign, "")[|prefix|..] == Decimal(campaign) && ScopeFor(other, "")[|prefix|..] == Decimal(other);
      DecimalIsInjective(campaign, other);
    }
  }

  predicate IsStatement(a: Action) { a.Insert? || a.Deliver? || a.MarkSent? || a.Count? || a.Complete? }

  function Following(pc: Pc): Pc {
    match pc
    case Preparing => Delivering
    case Delivering => Marking
    case Marking => Counting
    case Counting => Completing
    case _ => Done
  }

  /** What the statements of the try block have in common. */
  ghost predicate AfterStatement(s: State, a: Action, t: State)
    requires a.id in s.workers
  {
    var w := s.workers[a.id];
    && t.workers == s.workers[a.id := w.(pc := Following(w.pc), row := if a.Insert? then Some(|s.sends|) else w.row)]
    && |t.sends| == |s.sends| + (if a.Insert? then 1 else 0)
    && t.deliveries == s.deliveries + (if a.Deliver? then [a.id] else [])
    && t.entries == if a.Complete? then WithStatus(s.entries, w.key, Completed(OrZero(w.row))) else s.entries
  }

  function OrZero(row: Option<nat>): nat { if row.Some? then row.value else 0 }

  lemma StatementEffect(s: State, a: Action)
    requires Enabled(s, a) && IsStatement(a)
    ensures AfterStatement(s, a, Do(s, a))
  {
  }

  /** The run has claimed its key and its send row, if it has one, exists. */
  predicate Claimed(s: State, id: nat) {
    id in s.workers && s.workers[id].claimed && s.workers[id].key.Some? && s.workers[id].key.value in s.entries &&
    (s.workers[id].row.Some? ==> s.workers[id].row.value < |s.sends|)
  }

  /** The other runs are as they were, and this one is still for the same send. */
  ghost predicate OnlyChanged(s: State, t: State, id: nat) {
    id in s.workers && id in t.workers && t.workers[id].send == s.workers[id].send &&
    t.workers == s.workers[id := t.workers[id]]
  }

  class Dispatcher {
    var state: State
    var nextId: nat
    ghost var trace: seq<Action>

    ghost predicate Valid()
      reads this
    {
      CanRun(trace) && state == Run(trace) && forall id | id in state.workers :: id < nextId
    }

    /** On the tables as any earlier calls, finished or interrupted, have left them. */
    constructor (state: State, nextId: nat, ghost earlier: seq<Action>)
      requires CanRun(earlier) && state == Run(earlier) && forall id | id in state.workers :: id < nextId
      ensures Valid() && this.state == state && this.trace == earlier
    {
      this.state, this.nextId, this.trace := state, nextId, earlier;
    }

    /** One statement. */
    method Step(a: Action)
      requires Valid() && Enabled(state, a) && a.id < nextId
      modifies this`state, this`trace
      ensures Valid() && state == Do(old(state), a) && trace == old(trace) + [a]
    {
      RunAppend(trace, a);
      WorkersAfter(state, a);
      state, trace := Do(state, a), trace + [a];
    }

    /** A statement inside the try block: if it throws, the catch block runs. */
    method Try(id: nat, a: Action, fails: bool) returns (threw: bool)
      requires Valid() && id < nextId && Claimed(state, id)
      requires IsStatement(a) && Enabled(state, a) && a.id == id
      modifies this`state, this`trace
      ensures Valid() && threw == fails && id in state.workers
      ensures !fails ==> AfterStatement(old(state), a, state)
      ensures fails ==> state.deliveries == old(state).deliveries
      ensures fails ==> state.workers == old(state).workers[id := old(state).workers[id].(pc := Over)]
      ensures fails ==> state.entries == WithStatus(old(state).entries, old(state).workers[id].key, Spoiled)
    {
      hide CanRun, Run;
      if !fails {
        StatementEffect(state, a);
        Step(a);
        return false;
      }
      Step(Throw(id));
      if state.workers[id].pc.MarkingFailed? {
        Step(MarkFailed(id));
      }
      Step(Stamp(id));
      return true;
    }

    /** One call of sendCampaign, run to its end. */
    method SendCampaign(key: Key, send: Send, fault: Option<Pc>) returns (ok: bool)
      requires Valid()
      modifies this
      ensures Valid()
      ensures Sends(old(state), state, old(nextId), key, send, fault)
      ensures key in old(state).entries ==>
                (ok <==> state.entries[key].request == send && state.entries[key].status.Completed?)
      ensures key !in old(state).entries ==>
                state.entries[key].request == send && (ok <==> Works(fault)) && (ok <==> state.entries[key].status.Completed?)
    {
      hide CanRun, Run;
      var id := nextId;
      nextId := nextId + 1;
      Step(Begin(id, Some(key), send));
      Step(Claim(id));
      if state.workers[id].pc.Reading? {
        Step(Read(id));
        return state.workers[id].pc.Replayed?;
      }
      ghost var status;
      ok, status := Work(id, fault);
    }

    /** The statements of a call that has claimed its key. */
    method Work(id: nat, fault: Option<Pc>) returns (ok: bool, ghost status: Status)
      requires Valid() && id < nextId && At(state, id, Preparing) && Claimed(state, id) && state.workers[id].row.None?
      modifies this`state, this`trace
      ensures Valid() && (ok <==> Works(fault)) && (ok <==> status.Completed?)
      ensures state.entries == WithStatus(old(state).entries, old(state).workers[id].key, status)
      ensures state.deliveries == old(state).deliveries + if GoesOut(fault) then [id] else []
      ensures OnlyChanged(old(state), state, id)
    {
      hide CanRun, Run, Do, WithStatus, Valid;
      var threw := Try(id, Insert(id), fault == Some(Preparing));
      if threw { return false, Spoiled; }
      threw := Try(id, Deliver(id), fault == Some(Delivering));
      if threw { return false, Spoiled; }
      ok, status := Finish(id, fault);
    }

    /** The statements after the message has gone out. */
    method Finish(id: nat, fault: Option<Pc>) returns (ok: bool, ghost status: Status)
      requires Valid() && id < nextId && At(state, id, Marking) && Claimed(state, id) && state.workers[id].row.Some?
      requires GoesOut(fault)
      modifies this`state, this`trace
      ensures Valid() && (ok <==> Works(fault)) && (ok <==> status.Completed?)
      ensures state.entries == WithStatus(old(state).entries, old(state).workers[id].key, status)
      ensures state.deliveries == old(state).deliveries
      ensures OnlyChanged(old(state), state, id)
    {
      hide CanRun, Run, Do, WithStatus, Valid;
      var threw := Try(id, MarkSent(id), fault == Some(Marking));
      if threw { return false, Spoiled; }
      threw := Try(id, Count(id), fault == Some(Counting));
      if threw { return false, Spoiled; }
      threw := Try(id, Complete(id), fault == Some(Completing));
      if threw { return false, Spoiled; }
      ok, status := true, Completed(OrZero(state.workers[id].row));
    }

    /** The body of the loop: the call for one more member. */
    method SendMember(
        campaign: nat, user: nat, scope: string, faults: map<nat, Pc>, ghost part: seq<nat>, ghost before: State)
      returns (ok: bool)
      requires Valid() && user !in part && Dispatched(before, state, campaign, scope, faults, part)
      modifies this
      ensures Valid() && Dispatched(before, state, campaign, scope, faults, part + [user])
      ensures ok <==> Succeeds(campaign, user, scope, before.entries, faults)
    {
      hide Valid, Sends;
      ghost var s, id := state, nextId;
      ok := SendCampaign(Key(scope, user), Send(campaign, user, CHANNEL), FaultOf(faults, user));
      DispatchedOneMore(before, s, state, campaign, scope, faults, part, user, id);
      KeptEntry(before, state, campaign, scope, faults, part + [user], Key(scope, user));
      KeptEntry(before, s, campaign, scope, faults, part, Key(scope, user));
    }

    /** The loop over one page. */
    method SendPage(
        campaign: nat, page: seq<nat>, scope: string, faults: map<nat, Pc>, ghost part: seq<nat>, ghost before: State)
      returns (sent: nat, failed: nat)
      requires Valid() && NoDoubles(part + page) && Dispatched(before, state, campaign, scope, faults, part)
      modifies this
      ensures Valid() && Dispatched(before, state, campaign, scope, faults, part + page)
      ensures sent + failed == |page|
      ensures Successes(campaign, part + page, scope, before.entries, faults) ==
              Successes(campaign, part, scope, before.entries, faults) + sent
    {
      hide Valid, Dispatched, Successes;
      sent, failed := 0, 0;
      assert part + page[..0] == part;
      for i := 0 to |page|
        invariant Valid() && sent + failed == i
        invariant Dispatched(before, state, campaign, scope, faults, part + page[..i])
        invariant Successes(campaign, part + page[..i], scope, before.entries, faults) ==
                  Successes(campaign, part, scope, before.entries, faults) + sent
      {
        NotYet(part, page, i);
        var ok := SendMember(campaign, page[i], scope, faults, part + page[..i], before);
        SuccessesAppend(campaign, part + page[..i], page[i], scope, before.entries, faults);
        assert part + page[..i + 1] == part + page[..i] + [page[i]];
        if ok {
          sent := sent + 1;
        } else {
          failed := failed + 1;
        }
      }
      assert page[..|page|] == page;
    }

    /** The loop of sendCampaignToAudience over an audience that stays the same; its order is that of the user ids. */
    method SendToAudience(campaign: nat, audience: seq<nat>, scope: string, faults: map<nat, Pc>)
      returns (sent: nat, failed: nat, ghost visited: seq<nat>, ghost pages: nat)
      requires Valid() && NoDoubles(audience)
      modifies this
      ensures Valid()
      ensures visited == audience && sent + failed == |audience| && pages == |audience| / PAGE_SIZE + 1
      ensures Dispatched(old(state), state, campaign, scope, faults, audience)
      ensures sent == Successes(campaign, audience, scope, old(state).entries, faults)
    {
      hide Valid, Dispatched, Successes;
      sent, failed, visited, pages := 0, 0, [], 0;
      NothingDispatched(state, campaign, scope, faults);
      var offset := 0;
      while true
        invariant Valid() && offset == PAGE_SIZE * pages <= |audience|
        invariant visited == audience[..offset] && sent + failed == offset
        invariant Dispatched(old(state), state, campaign, scope, faults, visited)
        invariant sent == Successes(campaign, visited, scope, old(state).entries, faults)
        decreases |audience| - offset
      {
        var end := Min(offset + PAGE_SIZE, |audience|);
        var page := audience[offset..end];
        assert visited + page == audience[..end];
        var s, f := SendPage(campaign, page, scope, faults, visited, old(state));
        sent, failed, pages, visited := sent + s, failed + f, pages + 1, visited + page;
        if |page| < PAGE_SIZE {
          break;
        }
        offset := offset + PAGE_SIZE;
      }
      assert audience[..|audience|] == audience;
    }

    /** sendCampaignToAudience when it waits for the dispatch: `key` is the trimmed idempotency key, empty if none is given. */
    method DispatchCampaign(campaign: nat, active: bool, audience: seq<nat>, key: string, faults: map<nat, Pc>)
      returns (outcome: Outcome)
      requires Valid() && NoDoubles(audience)
      modifies this
      ensures Valid() && (outcome.Refused? <==> !active)
      ensures !active ==> state == old(state)
      ensures active ==>
                outcome.total == outcome.sent + outcome.failed == |audience| &&
                outcome.sent == Successes(campaign, audience, ScopeFor(campaign, key), old(state).entries, faults) &&
                Dispatched(old(state), state, campaign, ScopeFor(campaign, key), faults, audience)
    {
      if !active {
        return Refused;
      }
      var total := |audience|;
      var sent, failed, _, _ := SendToAudience(campaign, audience, ScopeFor(campaign, key), faults);
      outcome := Finished(total, sent, failed);
    }
  }
}
