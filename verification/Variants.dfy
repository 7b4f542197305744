/**
 A/B traffic allocation: createCampaignVariant and updateVariantAllocation as concurrent transactions. Both lock the
 campaign row before they sum the allocations of its variants. Steps are single SQL statements.
 */
module Variants {
  /** The column traffic_allocation is numeric(10, 2): a row stores its allocation in hundredths of a percent. */
  datatype Variant = Variant(campaign: nat, allocation: int)

  const FULL := 10000

  datatype Op = Create(campaign: nat, allocation: real) | Reallocate(variant: nat, allocation: real)

  datatype Lock = CampaignRow(campaign: nat) | VariantRow(index: nat)

  datatype Pc =
    | LockCampaign | SumAll | Insert                                                   // createCampaignVariant
    | FindVariant | LockCampaignOf(campaign: nat) | SumOthers(campaign: nat) | Update  // updateVariantAllocation
    | Committing | Over

  datatype Worker = Worker(op: Op, pc: Pc, locks: set<Lock>, written: bool)

  /** Variants are numbered by their position; no row changes its campaign or disappears. */
  datatype State = State(campaigns: set<nat>, variants: seq<Variant>, workers: map<nat, Worker>)

  datatype Action =
    | Begin(id: nat, op: Op)
    | Body(id: nat)
    | Commit(id: nat)
    | Fail(id: nat)
    | AddCampaign(campaign: nat)

  /** What the database stores for a requested percentage. */
  function Stored(allocation: real): int { (allocation * 100.0 + 0.5).Floor }

  function Percent(hundredths: int): real { hundredths as real / 100.0 }

  function Allocated(variants: seq<Variant>, campaign: nat): int {
    if variants == [] then 0
    else
      var last := variants[|variants| - 1];
      Allocated(variants[..|variants| - 1], campaign) + if last.campaign == campaign then last.allocation else 0
  }

  /** The sum over the other variants of the campaign, as the reduce over the filtered rows computes it. */
  function AllocatedElsewhere(variants: seq<Variant>, campaign: nat, variant: nat): int {
    if variants == [] then 0
    else
      var n := |variants| - 1;
      AllocatedElsewhere(variants[..n], campaign, variant) +
      if variants[n].campaign == campaign && n != variant then variants[n].allocation else 0
  }

  /** The validation both calls make before they open a transaction. */
  predicate Callable(op: Op) { 0.0 <= op.allocation <= 100.0 }

  function FirstPc(op: Op): Pc { if op.Create? then LockCampaign else FindVariant }

  predicate PcFits(op: Op, pc: Pc) {
    match pc
    case LockCampaign | SumAll | Insert => op.Create?
    case FindVariant | LockCampaignOf(_) | SumOthers(_) | Update => op.Reallocate?
    case _ => true
  }

  function Needs(s: State, w: Worker): set<Lock>
    requires PcFits(w.op, w.pc)
  {
    match w.pc
    case LockCampaign => if w.op.campaign in s.campaigns then {CampaignRow(w.op.campaign)} else {}
    case LockCampaignOf(c) => if c in s.campaigns then {CampaignRow(c)} else {}
    case SumOthers(c) => set i: nat | i < |s.variants| && s.variants[i].campaign == c :: VariantRow(i)
    case Update => {VariantRow(w.op.variant)}
    case _ => {}
  }

  /** The code throws: no such campaign or variant, or the sum would exceed 100. */
  predicate Throws(s: State, w: Worker)
    requires PcFits(w.op, w.pc)
  {
    match w.pc
    case LockCampaign => w.op.campaign !in s.campaigns
    case SumAll => Percent(Allocated(s.variants, w.op.campaign)) + w.op.allocation > 100.0
    case FindVariant => w.op.variant >= |s.variants|
    case SumOthers(c) => Percent(AllocatedElsewhere(s.variants, c, w.op.variant)) + w.op.allocation > 100.0
    case _ => false
  }

  predicate CanExecute(s: State, w: Worker) {
    !w.pc.Committing? && !w.pc.Over? && PcFits(w.op, w.pc) && !Throws(s, w)
  }

  function Execute(s: State, w: Worker): Worker
    requires CanExecute(s, w)
  {
    var v := w.(locks := w.locks + Needs(s, w));
    match w.pc
    case LockCampaign => v.(pc := SumAll)
    case SumAll => v.(pc := Insert)
    case Insert => v.(pc := Committing, written := true)
    case FindVariant => v.(pc := LockCampaignOf(s.variants[w.op.variant].campaign))
    case LockCampaignOf(c) => v.(pc := SumOthers(c))
    case SumOthers(_) => v.(pc := Update)
    case Update => v.(pc := Committing, written := w.op.variant < |s.variants|)
  }

  function Committed(variants: seq<Variant>, w: Worker): seq<Variant> {
    if !w.written then variants
    else if w.op.Create? then variants + [Variant(w.op.campaign, Stored(w.op.allocation))]
    else if w.op.variant < |variants| then variants[w.op.variant := variants[w.op.variant].(allocation := Stored(w.op.allocation))]
    else variants
  }

  ghost predicate Enabled(s: State, a: Action) {
    match a
    case Begin(id, op) => id !in s.workers && Callable(op)
    case Body(id) =>
      id in s.workers && CanExecute(s, s.workers[id]) &&
      forall j | j in s.workers && j != id :: s.workers[j].locks !! Needs(s, s.workers[id])
    case Commit(id) => id in s.workers && s.workers[id].pc.Committing?
    case Fail(id) => id in s.workers && !s.workers[id].pc.Over?
    case AddCampaign(_) => true
  }

  ghost function Do(s: State, a: Action): State
    requires Enabled(s, a)
  {
    match a
    case Begin(id, op) => s.(workers := s.workers[id := Worker(op, FirstPc(op), {}, false)])
    case Body(id) => s.(workers := s.workers[id := Execute(s, s.workers[id])])
    case Commit(id) =>
      s.(variants := Committed(s.variants, s.workers[id]),
         workers := s.workers[id := Worker(s.workers[id].op, Over, {}, false)])
    case Fail(id) => s.(workers := s.workers[id := Worker(s.workers[id].op, Over, {}, false)])
    case AddCampaign(campaign) => s.(campaigns := s.campaigns + {campaign})
  }

  function Init(): State { State({}, [], map[]) }

  ghost predicate CanRun(s: State, acts: seq<Action>)
    decreases |acts|
  {
    acts != [] ==> Enabled(s, acts[0]) && CanRun(Do(s, acts[0]), acts[1..])
  }

  ghost function Run(s: State, acts: seq<Action>): State
    requires CanRun(s, acts)
    decreases |acts|
  {
    if acts == [] then s else Run(Do(s, acts[0]), acts[1..])
  }

  // ---------------------------------------------------------------- sums

  lemma AllocatedAppend(variants: seq<Variant>, v: Variant, campaign: nat)
    ensures Allocated(variants + [v], campaign) ==
            Allocated(variants, campaign) + if v.campaign == campaign then v.allocation else 0
  {
    assert (variants + [v])[..|variants|] == variants;
  }

  lemma {:induction false} AllocatedSplits(variants: seq<Variant>, campaign: nat, variant: nat)
    ensures Allocated(variants, campaign) ==
            AllocatedElsewhere(variants, campaign, variant) +
            if variant < |variants| && variants[variant].campaign == campaign then variants[variant].allocation else 0
  {
    if variants != [] {
      AllocatedSplits(variants[..|variants| - 1], campaign, variant);
    }
  }

  lemma {:induction false} ElsewhereIgnores(variants: seq<Variant>, v: Variant, campaign: nat, variant: nat)
    requires variant < |variants| && v.campaign == variants[variant].campaign
    ensures AllocatedElsewhere(variants[variant := v], campaign, variant) == AllocatedElsewhere(variants, campaign, variant)
  {
    var n := |variants| - 1;
    if variant < n {
      assert variants[variant := v][..n] == variants[..n][variant := v];
      ElsewhereIgnores(variants[..n], v, campaign, variant);
    } else {
      assert variants[variant := v][..n] == variants[..n];
    }
  }

  // ---------------------------------------------------------------- the invariant

  ghost predicate VariantOk(s: State, i: nat)
    requires i < |s.variants|
  {
    0 <= s.variants[i].allocation <= FULL && s.variants[i].campaign in s.campaigns
  }

  ghost predicate WithinHundred(variants: seq<Variant>, campaign: nat) { Allocated(variants, campaign) <= FULL }

  ghost predicate WorkerOk(s: State, w: Worker) {
    && Callable(w.op) && PcFits(w.op, w.pc)
    && (w.written ==> w.pc.Committing?)
    && (w.op.Create? && (w.pc.SumAll? || w.pc.Insert? || w.pc.Committing?) ==>
          CampaignRow(w.op.campaign) in w.locks && w.op.campaign in s.campaigns)
    && (w.op.Create? && (w.pc.Insert? || w.pc.Committing?) ==>
          Allocated(s.variants, w.op.campaign) + Stored(w.op.allocation) <= FULL)
    && (w.op.Reallocate? && !w.pc.FindVariant? && !w.pc.Over? ==> w.op.variant < |s.variants|)
    && (w.op.Reallocate? && (w.pc.LockCampaignOf? || w.pc.SumOthers?) ==>
          w.pc.campaign == s.variants[w.op.variant].campaign)
    && (w.op.Reallocate? && (w.pc.SumOthers? || w.pc.Update? || w.pc.Committing?) ==>
          CampaignRow(s.variants[w.op.variant].campaign) in w.locks)
    && (w.op.Reallocate? && (w.pc.Update? || w.pc.Committing?) ==>
          AllocatedElsewhere(s.variants, s.variants[w.op.variant].campaign, w.op.variant) + Stored(w.op.allocation) <= FULL)
  }

  ghost predicate LocksApart(workers: map<nat, Worker>) {
    forall i, j | i in workers && j in workers && i != j :: workers[i].locks !! workers[j].locks
  }

  ghost predicate Inv(s: State) {
    && LocksApart(s.workers)
    && (forall i: nat {:trigger VariantOk(s, i)} | i < |s.variants| :: VariantOk(s, i))
    && (forall c: nat {:trigger WithinHundred(s.variants, c)} :: WithinHundred(s.variants, c))
    && (forall j {:trigger WorkerOk(s, s.workers[j])} | j in s.workers :: WorkerOk(s, s.workers[j]))
  }

  /** What a commit does to one campaign: nothing, unless it is the campaign whose row the transaction holds. */
  lemma CommitChanges(s: State, id: nat, c: nat)
    requires Inv(s) && Enabled(s, Commit(id))
    ensures var w := s.workers[id];
            var after := Committed(s.variants, w);
            && Allocated(after, c) <= FULL
            && |s.variants| <= |after| && (forall i | 0 <= i < |s.variants| :: after[i].campaign == s.variants[i].campaign)
            && (CampaignRow(c) !in w.locks ==>
                  Allocated(after, c) == Allocated(s.variants, c) &&
                  (forall i: nat :: AllocatedElsewhere(after, c, i) == AllocatedElsewhere(s.variants, c, i) ||
                                    i >= |s.variants|))
  {
    var w := s.workers[id];
    var after := Committed(s.variants, w);
    assert WorkerOk(s, w) && WithinHundred(s.variants, c);
    if w.written && w.op.Create? {
      AllocatedAppend(s.variants, Variant(w.op.campaign, Stored(w.op.allocation)), c);
    } else if w.written {
      var v := s.variants[w.op.variant].(allocation := Stored(w.op.allocation));
      ElsewhereIgnores(s.variants, v, c, w.op.variant);
      AllocatedSplits(s.variants, c, w.op.variant);
      AllocatedSplits(after, c, w.op.variant);
    }
    if CampaignRow(c) !in w.locks {
      forall i: nat | i < |s.variants|
        ensures AllocatedElsewhere(after, c, i) == AllocatedElsewhere(s.variants, c, i)
      {
        CommitLeavesElsewhere(s.variants, w, c, i);
      }
    }
  }

  lemma CommitLeavesElsewhere(variants: seq<Variant>, w: Worker, c: nat, i: nat)
    requires i < |variants|
    requires w.written && w.op.Create? ==> w.op.campaign != c
    requires w.written && w.op.Reallocate? ==> w.op.variant < |variants| && variants[w.op.variant].campaign != c
    ensures AllocatedElsewhere(Committed(variants, w), c, i) == AllocatedElsewhere(variants, c, i)
  {
    var after := Committed(variants, w);
    if w.written && w.op.Create? {
      assert after[..|variants|] == variants;
    } else if w.written {
      ElsewhereLeaves(variants, w.op.variant, after[w.op.variant], c, i);
    }
  }

  lemma {:induction false} ElsewhereLeaves(variants: seq<Variant>, k: nat, v: Variant, c: nat, i: nat)
    requires k < |variants| && v.campaign == variants[k].campaign != c
    ensures AllocatedElsewhere(variants[k := v], c, i) == AllocatedElsewhere(variants, c, i)
  {
    var n := |variants| - 1;
    if k < n {
      assert variants[k := v][..n] == variants[..n][k := v];
      ElsewhereLeaves(variants[..n], k, v, c, i);
    } else {
      assert variants[k := v][..n] == variants[..n];
    }
  }

  /** Rounding to hundredths cannot take a sum that passed the check over 100 percent. */
  lemma StoredFits(sum: int, allocation: real)
    requires 0.0 <= allocation <= 100.0
    ensures 0 <= Stored(allocation) <= FULL
    ensures Percent(sum) + allocation <= 100.0 ==> sum + Stored(allocation) <= FULL
  {
    if Percent(sum) + allocation <= 100.0 {
      assert allocation * 100.0 <= (FULL - sum) as real;
    }
  }

  lemma CommitKeepsWorker(s: State, id: nat, j: nat)
    requires Inv(s) && Enabled(s, Commit(id)) && j in s.workers && j != id
    ensures WorkerOk(Do(s, Commit(id)), s.workers[j])
  {
    var v := s.workers[j];
    assert WorkerOk(s, v);
    if v.op.Create? {
      CommitChanges(s, id, v.op.campaign);
    } else {
      CommitChanges(s, id, if v.op.variant < |s.variants| then s.variants[v.op.variant].campaign else 0);
    }
  }

  lemma CommitKeepsInv(s: State, id: nat)
    requires Inv(s) && Enabled(s, Commit(id))
    ensures Inv(Do(s, Commit(id)))
  {
    var u := Do(s, Commit(id));
    var w := s.workers[id];
    assert WorkerOk(s, w);
    StoredFits(0, w.op.allocation);
    forall i: nat | i < |u.variants| ensures VariantOk(u, i) {
      if i < |s.variants| {
        assert VariantOk(s, i);
      }
    }
    forall c: nat ensures WithinHundred(u.variants, c) {
      CommitChanges(s, id, c);
    }
    forall j | j in u.workers ensures WorkerOk(u, u.workers[j]) {
      if j != id {
        CommitKeepsWorker(s, id, j);
      }
    }
  }

  lemma BodyKeepsInv(s: State, id: nat)
    requires Inv(s) && Enabled(s, Body(id))
    ensures Inv(Do(s, Body(id)))
  {
    var u := Do(s, Body(id));
    var w := s.workers[id];
    assert WorkerOk(s, w);
    if w.pc.SumAll? {
      StoredFits(Allocated(s.variants, w.op.campaign), w.op.allocation);
    } else if w.pc.SumOthers? {
      StoredFits(AllocatedElsewhere(s.variants, w.pc.campaign, w.op.variant), w.op.allocation);
    } else if w.pc.LockCampaignOf? {
      assert VariantOk(s, w.op.variant);
    }
    forall i: nat | i < |u.variants| ensures VariantOk(u, i) {
      assert VariantOk(s, i);
    }
    forall c: nat ensures WithinHundred(u.variants, c) {
      assert WithinHundred(s.variants, c);
    }
    forall j | j in u.workers ensures WorkerOk(u, u.workers[j]) {
      assert WorkerOk(s, s.workers[j]);
    }
  }

  lemma DoKeepsInv(s: State, a: Action)
    requires Inv(s) && Enabled(s, a)
    ensures Inv(Do(s, a))
  {
    match a
    case Body(id) => BodyKeepsInv(s, id);
    case Commit(id) => CommitKeepsInv(s, id);
    case _ =>
      var u := Do(s, a);
      forall i: nat | i < |u.variants| ensures VariantOk(u, i) {
        assert VariantOk(s, i);
      }
      forall c: nat ensures WithinHundred(u.variants, c) {
        assert WithinHundred(s.variants, c);
      }
      forall j | j in u.workers ensures WorkerOk(u, u.workers[j]) {
        assert j in s.workers ==> WorkerOk(s, s.workers[j]);
      }
  }

  lemma {:induction false} RunKeepsInv(s: State, acts: seq<Action>)
    requires Inv(s) && CanRun(s, acts)
    ensures Inv(Run(s, acts))
    decreases |acts|
  {
    if acts != [] {
      DoKeepsInv(s, acts[0]);
      RunKeepsInv(Do(s, acts[0]), acts[1..]);
    }
  }

  /** Under every interleaving each allocation stays within 0..100, and those of one campaign sum to at most 100. */
  lemma AllocationsBounded(acts: seq<Action>, c: nat, i: nat)
    requires CanRun(Init(), acts) && i < |Run(Init(), acts).variants|
    ensures 0 <= Run(Init(), acts).variants[i].allocation <= FULL
    ensures Allocated(Run(Init(), acts).variants, c) <= FULL
  {
    RunKeepsInv(Init(), acts);
    assert VariantOk(Run(Init(), acts), i) && WithinHundred(Run(Init(), acts).variants, c);
  }

  // ---------------------------------------------------------------- a call that nobody disturbs

  /** What is stored is the requested percentage, rounded to the nearest hundredth, the larger one of two. */
  lemma StoredIsNearest(allocation: real)
    ensures -0.005 < Percent(Stored(allocation)) - allocation <= 0.005
  {
  }

  /** What a call demands: an allocation within 0..100 that leaves the sum of its campaign within 100. */
  predicate Possible(s: State, op: Op) {
    0.0 <= op.allocation <= 100.0 &&
    match op
    case Create(campaign, allocation) =>
      campaign in s.campaigns && Percent(Allocated(s.variants, campaign)) + allocation <= 100.0
    case Reallocate(variant, allocation) =>
      variant < |s.variants| &&
      var v := s.variants[variant];
      Percent(Allocated(s.variants, v.campaign) - v.allocation) + allocation <= 100.0
  }

  /** One new variant, or a new allocation of the one named, as asked for. */
  predicate Achieved(before: seq<Variant>, after: seq<Variant>, op: Op) {
    match op
    case Create(campaign, allocation) => after == before + [Variant(campaign, Stored(allocation))]
    case Reallocate(variant, allocation) =>
      variant < |before| && after == before[variant := Variant(before[variant].campaign, Stored(allocation))]
  }

  function Call(i: nat, op: Op): seq<Action> {
    [Begin(i, op)] + ([Body(i)] + ([Body(i)] + ([Body(i)] + if op.Create? then [Commit(i)] else [Body(i)] + [Commit(i)])))
  }

  ghost predicate NothingHeld(s: State) { forall j | j in s.workers :: s.workers[j].locks == {} }

  function During(s: State, i: nat, w: Worker): State { s.(workers := s.workers[i := w]) }

  lemma Steps(s: State, a: Action, rest: seq<Action>)
    ensures CanRun(s, [a] + rest) <==> Enabled(s, a) && CanRun(Do(s, a), rest)
    ensures CanRun(s, [a] + rest) ==> Run(s, [a] + rest) == Run(Do(s, a), rest)
  {
    assert ([a] + rest)[1..] == rest;
  }

  lemma BodyLeads(s: State, i: nat, w: Worker, rest: seq<Action>)
    requires NothingHeld(s)
    ensures CanRun(During(s, i, w), [Body(i)] + rest) <==>
              CanExecute(s, w) && CanRun(During(s, i, Execute(s, w)), rest)
    ensures CanRun(During(s, i, w), [Body(i)] + rest) ==>
              Run(During(s, i, w), [Body(i)] + rest) == Run(During(s, i, Execute(s, w)), rest)
  {
    var d := During(s, i, w);
    SameTables(s, d, w);
    if CanExecute(s, w) {
      assert Enabled(d, Body(i));
      assert Do(d, Body(i)) == During(s, i, Execute(s, w));
    }
    Steps(d, Body(i), rest);
  }

  lemma SameTables(s: State, d: State, w: Worker)
    requires d.campaigns == s.campaigns && d.variants == s.variants
    ensures CanExecute(d, w) <==> CanExecute(s, w)
    ensures PcFits(w.op, w.pc) ==> Needs(d, w) == Needs(s, w)
    ensures CanExecute(s, w) ==> Execute(d, w) == Execute(s, w)
  {
  }

  lemma CommitLeads(s: State, i: nat, w: Worker)
    requires w.pc.Committing?
    ensures CanRun(During(s, i, w), [Commit(i)]) && Run(During(s, i, w), [Commit(i)]).variants == Committed(s.variants, w)
  {
    assert [Commit(i)] + [] == [Commit(i)];
    Steps(During(s, i, w), Commit(i), []);
  }

  lemma CreateCall(s: State, i: nat, op: Op)
    requires NothingHeld(s) && i !in s.workers && op.Create? && Callable(op)
    ensures var rest := Call(i, op)[1..];
            && (CanRun(During(s, i, Worker(op, LockCampaign, {}, false)), rest) <==> Possible(s, op))
            && (Possible(s, op) ==>
                  Achieved(s.variants, Run(During(s, i, Worker(op, LockCampaign, {}, false)), rest).variants, op))
  {
    hide CanRun, Run;
    var w := Worker(op, LockCampaign, {}, false);
    var c: seq<Action> := [Commit(i)];
    assert Call(i, op)[1..] == [Body(i)] + ([Body(i)] + ([Body(i)] + c));
    BodyLeads(s, i, w, [Body(i)] + ([Body(i)] + c));
    if CanExecute(s, w) {
      var w1 := Execute(s, w);
      BodyLeads(s, i, w1, [Body(i)] + c);
      if CanExecute(s, w1) {
        var w2 := Execute(s, w1);
        BodyLeads(s, i, w2, c);
        CommitLeads(s, i, Execute(s, w2));
      }
    }
  }

  lemma ReallocateCall(s: State, i: nat, op: Op)
    requires NothingHeld(s) && i !in s.workers && op.Reallocate? && Callable(op)
    requires forall k | 0 <= k < |s.variants| :: s.variants[k].campaign in s.campaigns
    ensures var rest := Call(i, op)[1..];
            && (CanRun(During(s, i, Worker(op, FindVariant, {}, false)), rest) <==> Possible(s, op))
            && (Possible(s, op) ==>
                  Achieved(s.variants, Run(During(s, i, Worker(op, FindVariant, {}, false)), rest).variants, op))
  {
    hide CanRun, Run;
    var w := Worker(op, FindVariant, {}, false);
    var c: seq<Action> := [Commit(i)];
    assert Call(i, op)[1..] == [Body(i)] + ([Body(i)] + ([Body(i)] + ([Body(i)] + c)));
    BodyLeads(s, i, w, [Body(i)] + ([Body(i)] + ([Body(i)] + c)));
    if CanExecute(s, w) {
      AllocatedSplits(s.variants, s.variants[op.variant].campaign, op.variant);
      var w1 := Execute(s, w);
      BodyLeads(s, i, w1, [Body(i)] + ([Body(i)] + c));
      var w2 := Execute(s, w1);
      BodyLeads(s, i, w2, [Body(i)] + c);
      if CanExecute(s, w2) {
        var w3 := Execute(s, w2);
        BodyLeads(s, i, w3, c);
        CommitLeads(s, i, Execute(s, w3));
      }
    }
  }

  /**
   With no lock held a call runs to its commit exactly if its allocation and the sum of its campaign with it stay within
   0..100, and then it stores what was asked for, to the nearest hundredth, and changes no other variant.
   */
  lemma UndisturbedCall(s: State, i: nat, op: Op)
    requires NothingHeld(s) && i !in s.workers
    requires forall k | 0 <= k < |s.variants| :: s.variants[k].campaign in s.campaigns
    ensures CanRun(s, Call(i, op)) <==> Possible(s, op)
    ensures Possible(s, op) ==> Achieved(s.variants, Run(s, Call(i, op)).variants, op)
  {
    hide Possible, Achieved;
    var rest := Call(i, op)[1..];
    assert Call(i, op) == [Begin(i, op)] + rest;
    Steps(s, Begin(i, op), rest);
    CallableIfPossible(s, op);
    if Callable(op) {
      if op.Create? {
        CreateCall(s, i, op);
      } else {
        ReallocateCall(s, i, op);
      }
    }
  }

  lemma CallableIfPossible(s: State, op: Op)
    ensures Possible(s, op) ==> Callable(op)
  {
  }
}
