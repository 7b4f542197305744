/**
 The contract defaults of a market: a table with one row a market behind a cache, in the same form as module Economics.
 Governing law and forum are text; the overrides are JSON text that nothing here looks into.
 */
module ContractDefaults {
  import opened Prelude
  import opened CacheModel
  import HC = HotCache

  const CACHE_TTL_MS := 300000
  const DEFAULT_LAW := "Federal Republic of Nigeria"
  const DEFAULT_FORUM := "Lagos, Nigeria courts"
  const NO_OVERRIDES := "{}"

  datatype Row = Row(id: string, law: string, forum: string, overrides: string, effectiveFrom: int, published: bool,
                     consultation: Option<string>)

  type Table = map<string, Row>

  datatype Defaults = Defaults(market: string, law: string, forum: string, overrides: string, effectiveFrom: Option<int>,
                               published: bool, consultation: Option<string>, isDefault: bool)

  /** `id` is what a new row would get, `clock` is what the database clock reads, `posted` what the advisory post returned. */
  datatype Change = Change(law: Option<string>, forum: Option<string>, overrides: Option<string>, effectiveFrom: Option<int>,
                           id: string, clock: int, posted: Option<string>)

  datatype Request =
    | GetDefaults(market: string)
    | SetDefaults(market: string, change: Change)
    | Publish(market: string, agreed: string, eligible: bool)
    | Flush(which: Option<string>)

  datatype Reply =
    | Resolved(defaults: Defaults)
    | Stored(row: Row, posted: Option<string>)
    | Published(final: Row)
    | NotEligible | NotFound | Flushed

  // ---------------------------------------------------------------- the table

  function ReadDefaults(t: Table, market: string): Defaults {
    if market in t then
      var row := t[market];
      Defaults(market, row.law, row.forum, row.overrides, Some(row.effectiveFrom), row.published, row.consultation, false)
    else Defaults(market, DEFAULT_LAW, DEFAULT_FORUM, NO_OVERRIDES, None, false, None, true)
  }

  function OrElse<T>(x: Option<T>, otherwise: T): T { if x.Some? then x.value else otherwise }

  /** The upsert: a new row is unpublished, an old one becomes unpublished and keeps its id and consultation. */
  function Upserted(t: Table, market: string, c: Change): Row {
    Row(if market in t then t[market].id else c.id, OrElse(c.law, DEFAULT_LAW), OrElse(c.forum, DEFAULT_FORUM),
        OrElse(c.overrides, NO_OVERRIDES), OrElse(c.effectiveFrom, c.clock), false,
        if market in t then t[market].consultation else None)
  }

  function Linked(row: Row, posted: Option<string>): Row { if posted.Some? then row.(consultation := posted) else row }

  /** The platform without the cache. */
  function Direct(t: Table, r: Request): (Table, Reply) {
    match r
    case GetDefaults(market) => (t, Resolved(ReadDefaults(t, market)))
    case SetDefaults(market, change) =>
      var row := Linked(Upserted(t, market, change), change.posted);
      (t[market := row], Stored(row, change.posted))
    case Publish(market, agreed, eligible) =>
      if !eligible then (t, NotEligible)
      else if market !in t then (t, NotFound)
      else
        var row := t[market].(published := true, consultation := Some(agreed));
        (t[market := row], Published(row))
    case Flush(_) => (t, Flushed)
  }

  // ---------------------------------------------------------------- the cache

  datatype State = State(table: Table, cache: Cache<Defaults>)

  const CONFIG := Config(CACHE_TTL_MS, HC.DEFAULT_MAX_ENTRIES)

  function ServeDefaults(s: State, at: Times, market: string): (State, Defaults) {
    var (c, v) := Through(CONFIG, s.cache, at, market, ReadDefaults(s.table, market));
    (s.(cache := c), v)
  }

  /** The key is the market itself, so a market that ends in an asterisk wipes a whole family. */
  function Invalidated(s: State, market: Option<string>): State {
    match market
    case None => s.(cache := Do(CONFIG, s.cache, 0, Clear))
    case Some(m) => s.(cache := Do(CONFIG, s.cache, 0, Invalidate(m)))
  }

  /** Setting writes the row, invalidates, and then writes the consultation without invalidating again. */
  function Serve(s: State, at: Times, r: Request): (State, Reply) {
    match r
    case GetDefaults(market) =>
      var (s', v) := ServeDefaults(s, at, market);
      (s', Resolved(v))
    case SetDefaults(market, change) =>
      var row := Upserted(s.table, market, change);
      var s' := Invalidated(s.(table := s.table[market := row]), Some(market));
      var linked := Linked(row, change.posted);
      (s'.(table := s'.table[market := linked]), Stored(linked, change.posted))
    case Publish(market, _, _) =>
      var (t, reply) := Direct(s.table, r);
      (if reply.Published? then Invalidated(s.(table := t), Some(market)) else s, reply)
    case Flush(which) => (Invalidated(s, which), Flushed)
  }

  // ---------------------------------------------------------------- the class

  class ContractStore {
    var table: Table
    const cache: HC.HotCache<Defaults>

    ghost predicate Valid()
      reads this, cache, cache.entries
    {
      cache.Valid() && cache.ttlMs == CACHE_TTL_MS && cache.maxEntries == HC.DEFAULT_MAX_ENTRIES
    }

    ghost function View(): State
      reads this, cache, cache.entries
    {
      State(table, cache.Model())
    }

    constructor (table: Table)
      ensures Valid() && View() == State(table, CacheModel.Empty())
    {
      this.table := table;
      this.cache := new HC.HotCache(CACHE_TTL_MS, None);
    }

    method GetContractDefaults(market: string, now: int, later: int) returns (defaults: Defaults)
      requires Valid()
      modifies cache, cache.entries
      ensures Valid()
      ensures (View(), defaults) == ServeDefaults(old(View()), Times(now, [], later), market)
    {
      hide Do, Lookup, cache.Valid, cache.Model;
      var cached := cache.Get(market, now);
      if cached.Some? {
        return cached.value;
      }
      if market !in table {
        defaults := Defaults(market, DEFAULT_LAW, DEFAULT_FORUM, NO_OVERRIDES, None, false, None, true);
      } else {
        var row := table[market];
        defaults := Defaults(market, row.law, row.forum, row.overrides, Some(row.effectiveFrom), row.published,
                             row.consultation, false);
      }
      cache.Set(market, defaults, later);
    }

    method InvalidateCache(market: Option<string>)
      requires Valid()
      modifies cache, cache.entries
      ensures Valid()
      ensures View() == Invalidated(old(View()), market)
    {
      hide Do, cache.Valid, cache.Model;
      assert cache.Cfg() == CONFIG;
      ghost var c := cache.Model();
      if market.None? {
        cache.Clear();
        assert cache.Model() == Do(CONFIG, c, 0, Event.Clear);
        return;
      }
      var _ := cache.Invalidate(market.value);
      assert cache.Model() == Do(CONFIG, c, 0, Event.Invalidate(market.value));
    }

    method SetContractDefaults(market: string, change: Change) returns (reply: Reply)
      requires Valid()
      modifies this, cache, cache.entries
      ensures Valid()
      ensures forall at: Times :: (View(), reply) == Serve(old(View()), at, SetDefaults(market, change))
    {
      hide Invalidated, cache.Valid, cache.Model;
      ghost var before := View();
      var row: Row;
      if market in table {
        row := table[market].(law := OrElse(change.law, DEFAULT_LAW), forum := OrElse(change.forum, DEFAULT_FORUM),
                              overrides := OrElse(change.overrides, NO_OVERRIDES),
                              effectiveFrom := OrElse(change.effectiveFrom, change.clock), published := false);
      } else {
        row := Row(change.id, OrElse(change.law, DEFAULT_LAW), OrElse(change.forum, DEFAULT_FORUM),
                   OrElse(change.overrides, NO_OVERRIDES), OrElse(change.effectiveFrom, change.clock), false, None);
      }
      table := table[market := row];
      InvalidateCache(Some(market));
      TableKept(before.(table := before.table[market := row]), Some(market));
      if change.posted.Some? {
        row := row.(consultation := change.posted);
        table := table[market := row];
      }
      assert table == table[market := row];
      reply := Stored(row, change.posted);
    }

    method PublishContractDefaults(market: string, agreed: string, eligible: bool) returns (reply: Reply)
      requires Valid()
      modifies this, cache, cache.entries
      ensures Valid()
      ensures forall at: Times :: (View(), reply) == Serve(old(View()), at, Publish(market, agreed, eligible))
    {
      hide Invalidated, cache.Valid, cache.Model;
      if !eligible {
        return NotEligible;
      }
      if market !in table {
        return NotFound;
      }
      table := table[market := table[market].(published := true, consultation := Some(agreed))];
      InvalidateCache(Some(market));
      reply := Published(table[market]);
    }
  }

  lemma TableKept(s: State, market: Option<string>)
    ensures Invalidated(s, market).table == s.table
  {
  }
}

/** Whole runs of requests that do not overlap. */
module ContractRuns {
  import opened Prelude
  import opened CacheModel
  import opened ContractDefaults
  import Runs
  import Co = Coherence

  /** A request, or a sweep by the timer of the cache. */
  datatype Visit = Ask(at: Times, request: Request) | SweepUp(now: int)

  function ServeVisit(s: State, v: Visit): (State, seq<Reply>) {
    match v
    case Ask(at, request) =>
      var (after, reply) := Serve(s, at, request);
      (after, [reply])
    case SweepUp(now) => (s.(cache := Do(CONFIG, s.cache, now, Sweep)), [])
  }

  function DirectVisit(t: Table, v: Visit): (Table, seq<Reply>) {
    match v
    case Ask(_, request) =>
      var (after, reply) := Direct(t, request);
      (after, [reply])
    case SweepUp(_) => (t, [])
  }

  function RunCached(s: State, visits: seq<Visit>): (State, seq<Reply>) { Runs.Run(ServeVisit, s, visits) }

  function RunDirect(t: Table, visits: seq<Visit>): (Table, seq<Reply>) { Runs.Run(DirectVisit, t, visits) }

  function Truth(t: Table): string -> Defaults { (market: string) => ReadDefaults(t, market) }

  ghost predicate Fits(s: State) { Co.Coherent(s.cache.items, Truth(s.table)) }

  lemma ServeIsDirect(s: State, at: Times, r: Request)
    requires Fits(s)
    ensures var (s', reply) := Serve(s, at, r);
            Fits(s') && (s'.table, reply) == Direct(s.table, r)
  {
    var t := Direct(s.table, r).0;
    match r
    case GetDefaults(market) =>
      Co.ThroughIsTruth(CONFIG, s.cache, at, market, Truth(s.table));
    case SetDefaults(market, change) =>
      Co.InvalidateRestores(CONFIG, s.cache, 0, market, Truth(s.table), Truth(t));
      assert s.table[market := Upserted(s.table, market, change)][market := t[market]] == t;
    case Publish(market, _, _) =>
      Co.InvalidateRestores(CONFIG, s.cache, 0, market, Truth(s.table), Truth(t));
    case Flush(which) =>
      if which.Some? {
        Co.InvalidateRestores(CONFIG, s.cache, 0, which.value, Truth(s.table), Truth(s.table));
      }
  }

  lemma VisitIsDirect(s: State, v: Visit)
    requires Fits(s)
    ensures Fits(ServeVisit(s, v).0)
    ensures (ServeVisit(s, v).0.table, ServeVisit(s, v).1) == DirectVisit(s.table, v)
  {
    hide Serve, Direct;
    match v
    case Ask(at, request) => ServeIsDirect(s, at, request);
    case SweepUp(now) => Co.SweepKeepsCoherent(CONFIG, s.cache, now, Truth(s.table));
  }

  /**
   Any run of requests, with the timer sweeping the cache between and during them, gets through the cache the replies
   and the table it would get without it.
   */
  lemma CacheCannotBeNoticed(t: Table, visits: seq<Visit>)
    ensures var (s, replies) := RunCached(State(t, CacheModel.Empty()), visits);
            Fits(s) && (s.table, replies) == RunDirect(t, visits)
  {
    hide ServeVisit, DirectVisit;
    forall s, v | Fits(s)
      ensures Fits(ServeVisit(s, v).0) && (ServeVisit(s, v).0.table, ServeVisit(s, v).1) == DirectVisit(s.table, v)
    {
      VisitIsDirect(s, v);
    }
    Runs.RunsAgree(ServeVisit, DirectVisit, Fits, (s: State) => s.table, State(t, CacheModel.Empty()), visits);
  }

  /** The last change of a market's terms and whether it has been published since. */
  datatype Terms = Terms(change: Change, published: bool)

  function TermsAfter(before: Option<Terms>, v: Visit, market: string): Option<Terms> {
    if v.SweepUp? then before
    else
      var r := v.request;
      if r.SetDefaults? && r.market == market then Some(Terms(r.change, false))
      else if r.Publish? && r.market == market && r.eligible && before.Some? then Some(Terms(before.value.change, true))
      else before
  }

  function LastTerms(visits: seq<Visit>, market: string): Option<Terms> {
    if visits == [] then None
    else TermsAfter(LastTerms(visits[..|visits| - 1], market), visits[|visits| - 1], market)
  }

  ghost predicate Shows(d: Defaults, terms: Terms) {
    && !d.isDefault && d.published == terms.published
    && d.law == OrElse(terms.change.law, DEFAULT_LAW) && d.forum == OrElse(terms.change.forum, DEFAULT_FORUM)
    && d.overrides == OrElse(terms.change.overrides, NO_OVERRIDES)
    && d.effectiveFrom == Some(OrElse(terms.change.effectiveFrom, terms.change.clock))
  }

  function LocalDefaults(market: string): Defaults {
    Defaults(market, DEFAULT_LAW, DEFAULT_FORUM, NO_OVERRIDES, None, false, None, true)
  }

  lemma TermsStep(t: Table, v: Visit, market: string, before: Option<Terms>)
    requires before.Some? ==> Shows(ReadDefaults(t, market), before.value)
    ensures var now, terms := ReadDefaults(DirectVisit(t, v).0, market), TermsAfter(before, v, market);
            (terms.Some? ==> Shows(now, terms.value)) &&
            (terms.None? && market !in t ==> market !in DirectVisit(t, v).0)
  {
  }

  /**
   What is served is the last change, with the local law and forum where it leaves them open, and it is published
   exactly when a publication has succeeded since that change. A market never changed and without a row gets the
   local defaults.
   */
  lemma {:induction false} ServedIsLastChange(t: Table, visits: seq<Visit>, market: string)
    ensures var after, terms := RunDirect(t, visits).0, LastTerms(visits, market);
            && (terms.None? && market !in t ==> market !in after && ReadDefaults(after, market) == LocalDefaults(market))
            && (terms.Some? ==> Shows(ReadDefaults(after, market), terms.value))
  {
    hide Shows, DirectVisit, TermsAfter;
    if visits != [] {
      ServedIsLastChange(t, visits[..|visits| - 1], market);
      var before := RunDirect(t, visits[..|visits| - 1]).0;
      TermsStep(before, visits[|visits| - 1], market, LastTerms(visits[..|visits| - 1], market));
      NeverChanged(before, visits[|visits| - 1], market, LastTerms(visits[..|visits| - 1], market));
    }
  }

  lemma NeverChanged(t: Table, v: Visit, market: string, before: Option<Terms>)
    ensures TermsAfter(before, v, market).None? ==> before.None? && (market in DirectVisit(t, v).0 ==> market in t)
  {
  }

  /** Whether the market has a row, and which consultation it is linked to. */
  datatype Link = Link(known: bool, consultation: Option<string>)

  function LinkAfter(l: Link, v: Visit, market: string): Link {
    if v.SweepUp? || v.request.Flush? || v.request.GetDefaults? || v.request.market != market then l
    else if v.request.SetDefaults? then
      Link(true, if v.request.change.posted.Some? then v.request.change.posted else l.consultation)
    else if v.request.eligible && l.known then Link(true, Some(v.request.agreed))
    else l
  }

  function LastLink(start: Link, visits: seq<Visit>, market: string): Link {
    if visits == [] then start
    else LinkAfter(LastLink(start, visits[..|visits| - 1], market), visits[|visits| - 1], market)
  }

  function LinkOf(t: Table, market: string): Link { Link(market in t, if market in t then t[market].consultation else None) }

  /**
   The consultation that is served is the one posted or agreed last, a change without a post keeps it, and a market keeps
   the id of its row.
   */
  lemma {:induction false} ServedIsLastConsultation(t: Table, visits: seq<Visit>, market: string)
    ensures var after := RunDirect(t, visits).0;
            var link := LastLink(LinkOf(t, market), visits, market);
            && ReadDefaults(after, market).consultation == link.consultation
            && (ReadDefaults(after, market).isDefault <==> !link.known)
            && LinkOf(after, market) == link
            && (market in t ==> market in after && after[market].id == t[market].id)
  {
    if visits != [] {
      ServedIsLastConsultation(t, visits[..|visits| - 1], market);
    }
  }

  /** What a writer is told is what the next reader gets. */
  lemma WritersReadTheirWrites(t: Table, r: Request)
    ensures var (after, reply) := Direct(t, r);
            && (reply.Stored? ==> r.SetDefaults? && r.market in after && after == t[r.market := reply.row] &&
                                  (reply.posted.Some? ==> ReadDefaults(after, r.market).consultation == reply.posted))
            && (reply.Published? ==> r.Publish? && r.market in t && after == t[r.market := reply.final] &&
                                     ReadDefaults(after, r.market).published &&
                                     ReadDefaults(after, r.market).consultation == Some(r.agreed))
            && (reply.NotEligible? || reply.NotFound? ==> after == t)
  {
  }
}
