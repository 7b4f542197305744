/** Runs of calls that do not overlap, and what it takes for one way of serving them to look like another. */
module Runs {
  /** Serve the visits one after the other, from a state to a state, and collect the replies. */
  function Run<S, V, R>(serve: (S, V) -> (S, seq<R>), s: S, visits: seq<V>): (S, seq<R>) {
    if visits == [] then (s, [])
    else
      var (before, replies) := Run(serve, s, visits[..|visits| - 1]);
      var (after, more) := serve(before, visits[|visits| - 1]);
      (after, replies + more)
  }

  /** What each visit does alike from every fitting state, whole runs do alike. */
  lemma {:induction false} RunsAgree<S(!new), V(!new), T, R>(
      cached: (S, V) -> (S, seq<R>), direct: (T, V) -> (T, seq<R>), fits: S -> bool, view: S -> T, s: S, visits: seq<V>)
    requires fits(s)
    requires forall u, v {:trigger cached(u, v)} | fits(u) ::
               fits(cached(u, v).0) && (view(cached(u, v).0), cached(u, v).1) == direct(view(u), v)
    ensures fits(Run(cached, s, visits).0)
    ensures (view(Run(cached, s, visits).0), Run(cached, s, visits).1) == Run(direct, view(s), visits)
  {
    if visits != [] {
      RunsAgree(cached, direct, fits, view, s, visits[..|visits| - 1]);
    }
  }
}
