/** `task_gen.post`: which methods a task generator runs and in which order. */
module MethodOrder {
  import opened Basics
  import opened Graphs
  import opened Worklist

  type Feature = string

  const EVERY_FEATURE: Feature := "*"

  datatype Posting = AlreadyPosted | MethodCycle(left: Prec) | NoSuchMethod(name: Name) | Posted

  ghost function Bound(feats: map<Feature, set<Name>>, features: seq<Feature>): set<Name> {
    set x, n | x in features && x in feats && n in feats[x] :: n
  }

  /** The rules about the methods that are to run. */
  ghost function Rules(tbl: Prec, keys: set<Name>): Prec {
    map x | x in tbl && x in keys :: tbl[x]
  }

  ghost predicate Increasing(q: seq<Name>) {
    forall i, j :: 0 <= i < j < |q| ==> q[i] < q[j]
  }

  lemma ButLast(a: seq<Name>)
    requires Increasing(a) && a != []
    ensures forall y :: y in a[..|a| - 1] <==> y in a && y != a[|a| - 1]
    ensures forall y :: y in a ==> y <= a[|a| - 1]
  {
    assert a == a[..|a| - 1] + [a[|a| - 1]];
  }

  lemma AddLast(a: seq<Name>, x: Name)
    requires Increasing(a) && forall y :: y in a ==> y < x
    ensures Increasing(a + [x]) && forall y :: y in a + [x] <==> y in a || y == x
  {
    var r := a + [x];
    forall i, j | 0 <= i < j < |r|
      ensures r[i] < r[j]
    {
      assert i < |a| && r[i] == a[i];
      if j == |a| {
        assert a[i] in a;
      }
    }
  }

  function Insert(q: seq<Name>, x: Name): (r: seq<Name>)
    requires Increasing(q) && x !in q
    ensures Increasing(r) && forall y :: y in r <==> y in q || y == x
  {
    if q == [] then [x]
    else
      ButLast(q);
      var last := q[|q| - 1];
      if last < x then
        AddLast(q, x);
        q + [x]
      else
        var rest := Insert(q[..|q| - 1], x);
        AddLast(rest, last);
        rest + [last]
  }

  function Filter(q: seq<Name>, keys: set<Name>): seq<Name> {
    if q == [] then []
    else Filter(q[..|q| - 1], keys) + (if q[|q| - 1] in keys then [q[|q| - 1]] else [])
  }

  ghost predicate FirstMethods(keys: set<Name>, rules: Prec, tmp: seq<Name>) {
    Increasing(tmp) && forall x :: x in tmp <==> x in keys && !Listed(rules, x)
  }

  /** What `post` does with the methods: `left` are the rules it could not use up. */
  ghost predicate SortedInto(keys: set<Name>, tbl: Prec, meths: seq<Name>, left: Prec) {
    exists tmp :: FirstMethods(keys, Rules(tbl, keys), tmp) && DrainsTo(keys, tbl, tmp, meths, left)
  }

  ghost predicate StuckOn(keys: set<Name>, tbl: Prec, left: Prec) {
    left != map[] && exists out :: SortedInto(keys, tbl, out, left)
  }

  ghost predicate DrainsTo(keys: set<Name>, tbl: Prec, tmp: seq<Name>, meths: seq<Name>, left: Prec) {
    var d := Drain(Rules(tbl, keys), tmp);
    meths == Reversed(Filter(d.out, keys)) && left == d.left
  }

  /** Every method to run, once, after the methods it is ruled to follow. */
  ghost predicate InOrder(keys: set<Name>, tbl: Prec, meths: seq<Name>) {
    && NoDup(meths)
    && (forall x :: x in meths <==> x in keys)
    && (forall i, x :: 0 <= i < |meths| && meths[i] in tbl && x in tbl[meths[i]] && x in keys ==> x in meths[..i])
  }

  /** The method at `k` is the first that is missing. */
  ghost predicate CalledUpTo(meths: seq<Name>, known: set<Name>, k: int, r: Posting) {
    0 <= k < |meths| && r == NoSuchMethod(meths[k]) && meths[k] !in known && Elements(meths[..k]) <= known
  }

  class TaskGen {
    var meths: seq<Name>
    var posted: bool
    var called: seq<Name>

    constructor (m: seq<Name>)
      ensures meths == m && !posted && called == []
    {
      meths, posted, called := m, false, [];
    }

    /** `feats` binds methods to features, `tbl` is what the before and after decorators filled in, and `known`
        are the methods the class has. */
    method Post(feats: map<Feature, set<Name>>, features: seq<Feature>, tbl: Prec, known: set<Name>)
      returns (r: Posting)
      modifies this
      ensures posted
      ensures old(posted) <==> r == AlreadyPosted
      ensures r.AlreadyPosted? || r.MethodCycle? ==> meths == old(meths) && called == old(called)
      ensures !old(posted) ==>
        var keys := Elements(old(meths)) + Bound(feats, features + ["*"]);
        && (r.MethodCycle? ==> StuckOn(keys, tbl, r.left))
        && (!r.MethodCycle? ==> SortedInto(keys, tbl, meths, map[]))
        && (r.MethodCycle? <==> Cyclic(GraphOf(tbl), keys))
        && (DupFree(tbl) && !r.MethodCycle? ==> InOrder(keys, tbl, meths))
        && (tbl.Keys !! keys ==> Increasing(meths) && forall x :: x in meths <==> x in keys)
      ensures r.Posted? ==> called == old(called) + meths && Elements(meths) <= known
      ensures r.NoSuchMethod? ==> exists k :: CalledUpTo(meths, known, k, r) && called == old(called) + meths[..k]
    {
      if posted {
        return AlreadyPosted;
      }
      posted := true;
      var keys := KeysFor(feats, features + [EVERY_FEATURE]);
      var prec := map x | x in tbl && x in keys :: tbl[x];
      assert prec == Rules(tbl, keys);
      var tmp := First(keys, prec);
      var out, left := RunWorklist(keys, prec, tmp);
      PostSorts(keys, tbl, tmp);
      assert DrainsTo(keys, tbl, tmp, Reversed(out), left);
      assert SortedInto(keys, tbl, Reversed(out), left);
      if tbl.Keys !! keys {
        NoRulesByName(keys, tbl, Reversed(out), left);
      }
      if left != map[] {
        return MethodCycle(left);
      }
      meths := Reverse(out);
      r := CallAll(known);
    }

    /** Runs the methods in order, up to one that is missing. */
    method CallAll(known: set<Name>) returns (r: Posting)
      modifies this`called
      ensures r.Posted? || r.NoSuchMethod?
      ensures r.Posted? ==> called == old(called) + meths && Elements(meths) <= known
      ensures r.NoSuchMethod? ==> exists k :: CalledUpTo(meths, known, k, r) && called == old(called) + meths[..k]
    {
      var i := 0;
      while i < |meths|
        invariant 0 <= i <= |meths| && called == old(called) + meths[..i] && Elements(meths[..i]) <= known
      {
        if meths[i] !in known {
          r := NoSuchMethod(meths[i]);
          assert CalledUpTo(meths, known, i, r);
          return;
        }
        called := called + [meths[i]];
        assert meths[..i + 1] == meths[..i] + [meths[i]];
        i := i + 1;
      }
      assert meths[..i] == meths;
      return Posted;
    }

    /** The methods set on the generator and those bound to its features. */
    method KeysFor(feats: map<Feature, set<Name>>, features: seq<Feature>) returns (keys: set<Name>)
      ensures keys == Elements(meths) + Bound(feats, features)
    {
      keys := Elements(meths);
      for i := 0 to |features|
        invariant keys == Elements(meths) + Bound(feats, features[..i])
      {
        assert features[..i + 1] == features[..i] + [features[i]];
        if features[i] in feats {
          assert Bound(feats, features[..i + 1]) == Bound(feats, features[..i]) + feats[features[i]];
          keys := keys + feats[features[i]];
        } else {
          assert Bound(feats, features[..i + 1]) == Bound(feats, features[..i]);
        }
      }
      assert features[..|features|] == features;
    }
  }

  /** The methods nothing has to follow, sorted. */
  method First(keys: set<Name>, prec: Prec) returns (tmp: seq<Name>)
    ensures FirstMethods(keys, prec, tmp)
  {
    tmp := [];
    var todo := keys;
    while todo != {}
      invariant todo <= keys && Increasing(tmp)
      invariant forall x :: x in tmp <==> x in keys && x !in todo && !Listed(prec, x)
      decreases |todo|
    {
      var a :| a in todo;
      todo := todo - {a};
      if !Listed(prec, a) {
        tmp := Insert(tmp, a);
      }
    }
  }

  method RunWorklist(keys: set<Name>, rules: Prec, first: seq<Name>) returns (out: seq<Name>, prec: Prec)
    ensures out == Filter(Drain(rules, first).out, keys) && prec == Drain(rules, first).left
  {
    hide Drain, Freed, Filter, Listed;
    prec, out := rules, [];
    var tmp := first;
    ghost var popped, all := [], Drain(rules, first);
    FilterMore(keys);
    EmptyEnds(all.out);
    while tmp != []
      invariant out == Filter(popped, keys)
      invariant all.out == popped + Drain(prec, tmp).out && all.left == Drain(prec, tmp).left
      decreases |prec|, |tmp|
    {
      var e := tmp[|tmp| - 1];
      DrainRound(prec, tmp, popped);
      tmp := tmp[..|tmp| - 1];
      if e in keys {
        out := out + [e];
      }
      if e in prec {
        var nlst := prec[e];
        prec := prec - {e};
        tmp := AppendFreed(tmp, nlst, prec);
      }
      FilterNext(popped, e, keys);
      popped := popped + [e];
    }
    DrainNothing(prec);
    EmptyEnds(popped);
  }

  lemma EmptyEnds<T>(q: seq<T>)
    ensures [] + q == q && q + [] == q
  {
  }

  lemma FilterMore(keys: set<Name>)
    ensures Filter([], keys) == []
  {
  }

  lemma FilterNext(q: seq<Name>, e: Name, keys: set<Name>)
    ensures Filter(q + [e], keys) == if e in keys then Filter(q, keys) + [e] else Filter(q, keys)
  {
    assert (q + [e])[..|q + [e]| - 1] == q;
  }

  lemma DrainNothing(prec: Prec)
    ensures Drain(prec, []) == Drained([], prec)
  {
  }

  // --- what the order means

  lemma {:induction false} FilterIs(q: seq<Name>, keys: set<Name>)
    ensures forall x :: x in Filter(q, keys) <==> x in q && x in keys
    ensures NoDup(q) ==> NoDup(Filter(q, keys))
  {
    if q != [] {
      FilterIs(q[..|q| - 1], keys);
      assert q == q[..|q| - 1] + [q[|q| - 1]];
    }
  }

  /** Leaving out names that list nothing keeps the order. */
  lemma {:induction false} FilterPreceded(prec: Prec, q: seq<Name>, keys: set<Name>, i: nat)
    requires prec.Keys <= keys && i < |Filter(q, keys)|
    requires forall j :: 0 <= j < |q| ==> Preceded(prec, q, j)
    ensures Preceded(prec, Filter(q, keys), i)
  {
    var init, f := q[..|q| - 1], Filter(q, keys);
    forall j | 0 <= j < |init|
      ensures Preceded(prec, init, j)
    {
      assert Preceded(prec, q, j);
      assert init[..j] == q[..j];
    }
    if i < |Filter(init, keys)| {
      FilterPreceded(prec, init, keys, i);
      assert f[..i] == Filter(init, keys)[..i];
    } else {
      assert f[..i] == Filter(init, keys);
      assert Preceded(prec, q, |q| - 1);
      FilterIs(init, keys);
    }
  }

  /** A cycle of rules among the methods to run only ever uses rules that `post` keeps. */
  lemma RulesCycle(tbl: Prec, keys: set<Name>)
    ensures Cyclic(GraphOf(tbl), keys) <==> Cyclic(GraphOf(Rules(tbl, keys)), Rules(tbl, keys).Keys)
  {
    var rules := Rules(tbl, keys);
    forall w: seq<Name>
      ensures CycleIn(GraphOf(tbl), keys, w) <==> CycleIn(GraphOf(rules), rules.Keys, w)
    {
      RulesWalk(tbl, keys, w);
    }
  }

  lemma RulesWalk(tbl: Prec, keys: set<Name>, w: seq<Name>)
    ensures CycleIn(GraphOf(tbl), keys, w) <==> CycleIn(GraphOf(Rules(tbl, keys)), Rules(tbl, keys).Keys, w)
  {
    var rules := Rules(tbl, keys);
    forall i | 0 <= i < |w| - 1 && w[i] in keys
      ensures Edge(GraphOf(rules), w[i], w[i + 1]) <==> Edge(GraphOf(tbl), w[i], w[i + 1])
    {
    }
    if CycleIn(GraphOf(tbl), keys, w) {
      forall i | 0 <= i < |w|
        ensures w[i] in rules
      {
        assert i == |w| - 1 || Edge(GraphOf(tbl), w[i], w[i + 1]);
        assert Edge(GraphOf(tbl), w[0], w[0 + 1]);
      }
    }
    if CycleIn(GraphOf(rules), rules.Keys, w) {
      assert forall i :: 0 <= i < |w| ==> w[i] in rules.Keys;
      assert Walk(GraphOf(tbl), w);
    }
  }

  lemma BackInOrder(keys: set<Name>, tbl: Prec, f: seq<Name>)
    requires NoDup(f) && (forall x :: x in f <==> x in keys)
    requires forall i :: 0 <= i < |f| ==> Preceded(Rules(tbl, keys), f, i)
    ensures InOrder(keys, tbl, Reversed(f))
  {
    var m, n := Reversed(f), |f|;
    forall x
      ensures x in m <==> x in f
    {
      if x in f {
        var k :| 0 <= k < n && f[k] == x;
        assert m[n - 1 - k] == x;
      }
    }
    forall i, x | 0 <= i < |m| && m[i] in tbl && x in tbl[m[i]] && x in keys
      ensures x in m[..i]
    {
      var k :| 0 <= k < n && f[k] == x;
      assert Preceded(Rules(tbl, keys), f, k);
      assert m[i] == f[n - 1 - i] && m[i] in f && m[i] in Rules(tbl, keys);
      assert m[i] in f[..k];
      var j :| 0 <= j < k && f[j] == m[i];
      assert f[n - 1 - i] == m[i] && j == n - 1 - i;
      assert m[n - 1 - k] == x;
    }
  }

  /** `post` either puts every method after those it is ruled to follow or finds a cycle of rules, and it
      finds one exactly when there is one. (A rule that is there twice can put a method on the list twice; the
      decorators add none twice.) */
  lemma PostSorts(keys: set<Name>, tbl: Prec, tmp: seq<Name>)
    requires FirstMethods(keys, Rules(tbl, keys), tmp)
    ensures
      var d := Drain(Rules(tbl, keys), tmp);
      && (d.left == map[] <==> !Cyclic(GraphOf(tbl), keys))
      && (d.left == map[] && DupFree(tbl) ==> InOrder(keys, tbl, Reversed(Filter(d.out, keys))))
  {
    RulesCycle(tbl, keys);
    assert DupFree(tbl) ==> DupFree(Rules(tbl, keys));
    hide *;
    FirstAreRoots(keys, Rules(tbl, keys), tmp);
    SortsRules(keys, tbl, tmp);
  }

  lemma FirstAreRoots(keys: set<Name>, rules: Prec, tmp: seq<Name>)
    requires FirstMethods(keys, rules, tmp)
    ensures Roots(rules, keys, tmp)
  {
  }

  lemma SortsRules(keys: set<Name>, tbl: Prec, tmp: seq<Name>)
    requires Roots(Rules(tbl, keys), keys, tmp)
    ensures
      var d := Drain(Rules(tbl, keys), tmp);
      && (d.left == map[] <==> !Cyclic(GraphOf(Rules(tbl, keys)), Rules(tbl, keys).Keys))
      && (d.left == map[] && DupFree(Rules(tbl, keys)) ==> InOrder(keys, tbl, Reversed(Filter(d.out, keys))))
  {
    hide Cyclic, InOrder, Roots, DupFree;
    var rules := Rules(tbl, keys);
    var d := Drain(rules, tmp);
    DrainSorts(rules, keys, tmp);
    if d.left.Keys == {} && DupFree(rules) {
      FilterIs(d.out, keys);
      forall i | 0 <= i < |Filter(d.out, keys)|
        ensures Preceded(rules, Filter(d.out, keys), i)
      {
        FilterPreceded(rules, d.out, keys, i);
      }
      RulesAreListed(tbl, keys);
      BackInOrder(keys, tbl, Filter(d.out, keys));
    }
  }

  lemma RulesAreListed(tbl: Prec, keys: set<Name>)
    ensures forall x :: x in Rules(tbl, keys) ==> x in keys
  {
  }

  lemma SameEnd(a: seq<Name>, b: seq<Name>)
    requires Increasing(a) && Increasing(b) && forall x :: x in a <==> x in b
    ensures a == [] <==> b == []
    ensures a != [] ==> a[|a| - 1] == b[|b| - 1]
  {
    assert (|a| > 0 ==> a[0] in a) && (|b| > 0 ==> b[0] in b);
    if a != [] {
      ButLast(a);
      ButLast(b);
      assert a[|a| - 1] in a && b[|b| - 1] in b;
    }
  }

  lemma {:induction false} IncreasingUnique(a: seq<Name>, b: seq<Name>)
    requires Increasing(a) && Increasing(b) && forall x :: x in a <==> x in b
    ensures a == b
    decreases |a|
  {
    SameEnd(a, b);
    if a != [] {
      var a', b' := a[..|a| - 1], b[..|b| - 1];
      ButLast(a);
      ButLast(b);
      forall x
        ensures x in a' <==> x in b'
      {
        assert x in a <==> x in b;
      }
      IncreasingUnique(a', b');
      assert a == a' + [a[|a| - 1]] && b == b' + [b[|b| - 1]];
    }
  }

  lemma {:induction false} FilterAll(q: seq<Name>, keys: set<Name>)
    requires forall x :: x in q ==> x in keys
    ensures Filter(q, keys) == q
    decreases |q|
  {
    if q != [] {
      assert q == q[..|q| - 1] + [q[|q| - 1]];
      FilterAll(q[..|q| - 1], keys);
    }
  }

  /** Where there are no rules the methods run by name. */
  lemma NoRulesByName(keys: set<Name>, tbl: Prec, meths: seq<Name>, left: Prec)
    requires SortedInto(keys, tbl, meths, left) && tbl.Keys !! keys
    ensures Increasing(meths) && (forall x :: x in meths <==> x in keys) && left == map[]
  {
    assert Rules(tbl, keys) == map[];
    var tmp: seq<Name> :| FirstMethods(keys, Rules(tbl, keys), tmp) && DrainsTo(keys, tbl, tmp, meths, left);
    ReversedHas(tmp);
    LooseEnds(keys, Rules(tbl, keys), tmp);
    ReversedTwice(tmp);
  }

  lemma LooseEnds(keys: set<Name>, rules: Prec, tmp: seq<Name>)
    requires rules == map[] && forall x :: x in tmp ==> x in keys
    ensures Drain(rules, tmp).left == map[] && Filter(Drain(rules, tmp).out, keys) == Reversed(tmp)
  {
    DrainLoose(tmp);
    ReversedHas(tmp);
    FilterAll(Reversed(tmp), keys);
  }

  lemma ReversedHas(q: seq<Name>)
    ensures forall x :: x in Reversed(q) <==> x in q
  {
    forall x | x in q
      ensures x in Reversed(q)
    {
      var k :| 0 <= k < |q| && q[k] == x;
      assert Reversed(q)[|q| - 1 - k] == x;
    }
  }

  /** The order does not depend on how the sets and tables involved happen to be enumerated. */
  lemma PostIsDeterministic(keys: set<Name>, tbl: Prec, m: seq<Name>, l: Prec, n: seq<Name>, k: Prec)
    requires SortedInto(keys, tbl, m, l) && SortedInto(keys, tbl, n, k)
    ensures m == n && l == k
  {
    var rules := Rules(tbl, keys);
    var s :| FirstMethods(keys, rules, s) && DrainsTo(keys, tbl, s, m, l);
    var t :| FirstMethods(keys, rules, t) && DrainsTo(keys, tbl, t, n, k);
    IncreasingUnique(s, t);
  }
}
