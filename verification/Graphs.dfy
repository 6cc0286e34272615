/** Finite directed graphs, given by their successor sets: the small theory of cycles that
    the task scheduler and the two method and library sorters share. */
module Graphs {

  type Graph<T> = map<T, set<T>>

  ghost predicate Edge<T>(g: Graph<T>, a: T, b: T) {
    a in g && b in g[a]
  }

  ghost predicate Walk<T>(g: Graph<T>, w: seq<T>) {
    forall i :: 0 <= i < |w| - 1 ==> Edge(g, w[i], w[i + 1])
  }

  ghost predicate Within<T>(w: seq<T>, s: set<T>) {
    forall i :: 0 <= i < |w| ==> w[i] in s
  }

  /** A closed walk through elements of `s`, with at least one edge. */
  ghost predicate CycleIn<T>(g: Graph<T>, s: set<T>, w: seq<T>) {
    |w| >= 2 && w[0] == w[|w| - 1] && Walk(g, w) && Within(w, s)
  }

  ghost predicate Cyclic<T(!new)>(g: Graph<T>, s: set<T>) {
    exists w :: CycleIn(g, s, w)
  }

  /** A sequence longer than the set it draws from repeats an element. */
  lemma {:induction false} Pigeonhole<T>(w: seq<T>, s: set<T>) returns (i: nat, j: nat)
    requires Within(w, s) && |w| > |s|
    ensures i < j < |w| && w[i] == w[j]
    decreases |w|
  {
    if k :| 1 <= k < |w| && w[k] == w[0] {
      return 0, k;
    }
    assert w[0] in s;
    var i', j' := Pigeonhole(w[1..], s - {w[0]});
    return i' + 1, j' + 1;
  }

  ghost predicate Continues<T(!new)>(g: Graph<T>, s: set<T>, x: T) {
    exists y :: y in s && Edge(g, x, y)
  }

  lemma {:induction false} LongWalk<T(!new)>(g: Graph<T>, s: set<T>, start: T, n: nat) returns (w: seq<T>)
    requires start in s
    requires forall x :: x in s ==> Continues(g, s, x)
    ensures |w| == n + 1 && w[0] == start && Walk(g, w) && Within(w, s)
    decreases n
  {
    if n == 0 {
      return [start];
    }
    assert Continues(g, s, start);
    var next :| next in s && Edge(g, start, next);
    var rest := LongWalk(g, s, next, n - 1);
    w := [start] + rest;
  }

  /** If every element of a nonempty finite set has a successor in the set, the set holds a cycle. */
  lemma SinkOrCycle<T(!new)>(g: Graph<T>, s: set<T>)
    requires s != {}
    requires forall x :: x in s ==> Continues(g, s, x)
    ensures Cyclic(g, s)
  {
    var start :| start in s;
    var w := LongWalk(g, s, start, |s|);
    var i, j := Pigeonhole(w, s);
    Cut(g, s, w, i, j);
  }

  /** Between two places where it comes to the same element a walk is a cycle. */
  lemma Cut<T>(g: Graph<T>, s: set<T>, w: seq<T>, i: nat, j: nat)
    requires Walk(g, w) && Within(w, s) && i < j < |w| && w[i] == w[j]
    ensures CycleIn(g, s, w[i..j + 1])
  {
    var c := w[i..j + 1];
    forall k | 0 <= k < |c| - 1
      ensures Edge(g, c[k], c[k + 1])
    {
      assert Edge(g, w[i + k], w[i + k + 1]);
    }
  }

  lemma CyclicGrows<T(!new)>(g: Graph<T>, s: set<T>, h: Graph<T>, t: set<T>)
    requires Cyclic(g, s) && s <= t
    requires forall x, y :: x in s && Edge(g, x, y) ==> Edge(h, x, y)
    ensures Cyclic(h, t)
  {
    var w :| CycleIn(g, s, w);
    assert CycleIn(h, t, w);
  }

  /** Every element of a cycle has its predecessor on the cycle as well. */
  lemma CyclePredecessor<T>(g: Graph<T>, s: set<T>, w: seq<T>, k: nat) returns (p: T)
    requires CycleIn(g, s, w) && k < |w|
    ensures p in s && Edge(g, p, w[k])
  {
    var j := if k == 0 then |w| - 2 else k - 1;
    assert w[j + 1] == w[k];
    return w[j];
  }

  ghost predicate Closed<T(!new)>(g: Graph<T>, s: set<T>) {
    forall x, y :: x in s && Edge(g, x, y) ==> y in s
  }

  /** Adding an element all of whose successors are already in a closed set makes no new cycle. */
  lemma AddToClosed<T(!new)>(g: Graph<T>, s: set<T>, t: T)
    requires Closed(g, s)
    requires forall y :: Edge(g, t, y) ==> y in s
    ensures Closed(g, s + {t})
    ensures Cyclic(g, s + {t}) ==> Cyclic(g, s)
  {
    if Cyclic(g, s + {t}) {
      var w :| CycleIn(g, s + {t}, w);
      forall k | 0 <= k < |w|
        ensures w[k] in s
      {
        var p := CyclePredecessor(g, s + {t}, w, k);
        assert p == t || p in s;
      }
      assert CycleIn(g, s, w);
    }
  }

  lemma EmptyAcyclic<T(!new)>(g: Graph<T>)
    ensures !Cyclic(g, {})
  {
    forall w: seq<T>
      ensures !CycleIn(g, {}, w)
    {
      assert |w| > 0 ==> w[0] !in {};
    }
  }
}
