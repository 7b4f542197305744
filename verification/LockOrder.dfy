/**
 Waiting for locks. Every session holds a set of locks and, if its next statement needs some, wants a set of
 locks. If all sessions take their locks in the order of one ranking, no set of sessions can all be waiting
 on each other.
 */
module LockOrder {
  /** What one session holds, and what its next statement needs on top of that. */
  datatype Session<L> = Session(held: set<L>, wanted: set<L>)

  /** Whatever a session still wants ranks above everything it already holds. */
  ghost predicate Ascending<L(!new)>(p: Session<L>, rank: L -> nat) {
    forall h, l | h in p.held && l in p.wanted :: rank(h) < rank(l)
  }

  ghost predicate Blocks<L>(j: Session<L>, i: Session<L>) {
    exists l | l in i.wanted :: l in j.held
  }

  ghost predicate BlockedWithin<L>(all: map<nat, Session<L>>, i: nat, among: set<nat>)
    requires i in all && among <= all.Keys
  {
    exists j | j in among :: j != i && Blocks(all[j], all[i])
  }

  /** No non-empty set of sessions is a deadlock: one of its members waits for none of the others. */
  lemma SomeoneMoves<L(!new)>(all: map<nat, Session<L>>, rank: L -> nat, top: nat, among: set<nat>) returns (i: nat)
    requires among != {} && among <= all.Keys
    requires forall j | j in among :: Ascending(all[j], rank)
    requires forall j, l | j in among && l in all[j].held :: rank(l) <= top
    ensures i in among && !BlockedWithin(all, i, among)
  {
    var start :| start in among;
    i := Follow(all, rank, top, among, start, 0);
  }

  /** Follow the chain of waiting sessions: the rank they wait for goes up at every link. */
  lemma {:induction false} Follow<L(!new)>(
      all: map<nat, Session<L>>, rank: L -> nat, top: nat, among: set<nat>, from: nat, reached: nat) returns (i: nat)
    requires from in among && among <= all.Keys && reached <= top + 1
    requires forall j | j in among :: Ascending(all[j], rank)
    requires forall j, l | j in among && l in all[j].held :: rank(l) <= top
    requires forall l | l in all[from].wanted :: reached <= rank(l)
    ensures i in among && !BlockedWithin(all, i, among)
    decreases top + 1 - reached
  {
    if !BlockedWithin(all, from, among) {
      return from;
    }
    var j :| j in among && j != from && Blocks(all[j], all[from]);
    var l :| l in all[from].wanted && l in all[j].held;
    i := Follow(all, rank, top, among, j, rank(l) + 1);
  }
}
