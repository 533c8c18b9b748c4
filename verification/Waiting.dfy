/** Transactions that wait for each other's locks, when every one takes its locks upwards. */
module Waiting {
  import opened Wrappers
  import opened Protocol
  import Text

  function Rank(l: Lock): nat {
    match l
    case SequenceRow(_) => 1
    case DeviceRow(_) => 2
    case AccountRow(_) => 3
    case JournalRow(_) => 4
    case IdentityOf(_) => 4
    case EnvelopeRow(_) => 5
    case ReceiptRow(_) => 6
    case ClaimRow(_) => 7
  }

  predicate Below(a: Lock, b: Lock) {
    Rank(a) < Rank(b) || (a.AccountRow? && b.AccountRow? && Text.Less(a.vpa, b.vpa))
  }

  lemma BelowIsStrictOrder(a: Lock, b: Lock, c: Lock)
    ensures !Below(a, a)
    ensures Below(a, b) && Below(b, c) ==> Below(a, c)
  {
    if a.AccountRow? {
      Text.LessIrreflexive(a.vpa);
      if b.AccountRow? && c.AccountRow? && Text.Less(a.vpa, b.vpa) && Text.Less(b.vpa, c.vpa) {
        Text.LessTransitive(a.vpa, b.vpa, c.vpa);
      }
    }
  }

  /** The open transactions, the row each must lock next, and the rows each has locked. */
  datatype Graph<!T> = Graph(running: set<T>, wanted: T -> Option<Lock>, held: T -> set<Lock>)

  /** Whatever a transaction wants is above everything it has. */
  ghost predicate Ordered<T(!new)>(g: Graph<T>) {
    && (forall t, l :: l in g.held(t) ==> t in g.running)
    && (forall t, l :: t in g.running && l in g.held(t) && g.wanted(t).Some? ==> Below(l, g.wanted(t).value))
  }

  /** t cannot go on before u ends. */
  ghost predicate WaitsFor<T>(g: Graph<T>, t: T, u: T) {
    t in g.running && t != u && g.wanted(t).Some? && g.wanted(t).value in g.held(u)
  }

  ghost predicate IsWaitingPath<T>(g: Graph<T>, path: seq<T>) {
    |path| >= 2 && forall i :: 0 <= i < |path| - 1 ==> WaitsFor(g, path[i], path[i + 1])
  }

  lemma {:induction false} WaitingClimbs<T(!new)>(g: Graph<T>, path: seq<T>, i: nat)
    requires Ordered(g) && IsWaitingPath(g, path) && 0 < i < |path| - 1
    ensures g.wanted(path[0]).Some? && g.wanted(path[i]).Some?
    ensures Below(g.wanted(path[0]).value, g.wanted(path[i]).value)
    decreases i
  {
    assert WaitsFor(g, path[0], path[1]) && WaitsFor(g, path[i - 1], path[i]) && WaitsFor(g, path[i], path[i + 1]);
    if i > 1 {
      WaitingClimbs(g, path, i - 1);
      BelowIsStrictOrder(g.wanted(path[0]).value, g.wanted(path[i - 1]).value, g.wanted(path[i]).value);
    }
  }

  lemma NoCycle<T(!new)>(g: Graph<T>, path: seq<T>)
    requires Ordered(g) && IsWaitingPath(g, path)
    ensures path[0] != path[|path| - 1]
  {
    var last := |path| - 1;
    assert WaitsFor(g, path[last - 1], path[last]) && WaitsFor(g, path[0], path[1]);
    if path[0] == path[last] {
      var from, before := g.wanted(path[0]).value, g.wanted(path[last - 1]).value;
      if last > 1 {
        WaitingClimbs(g, path, last - 1);
      }
      BelowIsStrictOrder(from, before, from);
    }
  }

  /** Nothing that t must lock next is locked by another. */
  ghost predicate IsFree<T(!new)>(g: Graph<T>, t: T) {
    t in g.running && (g.wanted(t).Some? ==> forall u :: u != t ==> g.wanted(t).value !in g.held(u))
  }

  /** Everything locked by the transactions already passed is below what t wants. */
  ghost predicate PassedBelow<T(!new)>(g: Graph<T>, t: T, left: set<T>) {
    forall u, l :: u !in left && l in g.held(u) && g.wanted(t).Some? ==> Below(l, g.wanted(t).value)
  }

  /** Follows the waiting upwards; `left` holds the transactions not yet passed. */
  lemma {:induction false} Climb<T(!new)>(g: Graph<T>, t: T, left: set<T>) returns (top: T)
    requires Ordered(g) && t in g.running && t in left && PassedBelow(g, t, left)
    ensures IsFree(g, top)
    decreases left
  {
    if IsFree(g, t) {
      return t;
    }
    var u :| u != t && g.wanted(t).value in g.held(u);
    var want := g.wanted(t).value;
    BelowIsStrictOrder(want, want, want);
    forall v, l | v !in left - {t} && l in g.held(v) && g.wanted(u).Some?
      ensures Below(l, g.wanted(u).value)
    {
      assert Below(want, g.wanted(u).value);
      BelowIsStrictOrder(l, want, g.wanted(u).value);
    }
    top := Climb(g, u, left - {t});
  }

  /** While any transaction runs, one of them has nothing to wait for. */
  lemma SomeoneIsFree<T(!new)>(g: Graph<T>, t: T)
    requires Ordered(g) && t in g.running
    ensures exists top :: IsFree(g, top)
  {
    var top := Climb(g, t, g.running);
  }
}
