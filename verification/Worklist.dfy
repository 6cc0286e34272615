/** The worklist that sorts both the methods of a task generator and the libraries it uses: names that no
    remaining list mentions are taken from the end of `tmp`, and taking a name drops its own list. */
module Worklist {
  import opened Basics
  import opened Graphs

  /** A name is given by its rank in string order, which is all that sorting names looks at. */
  type Name = nat

  /** `prec[e]` lists the names that are to end up before `e`. */
  type Prec = map<Name, seq<Name>>

  predicate Listed(prec: Prec, x: Name) {
    exists y :: y in prec && x in prec[y]
  }

  /** The names of a list that no list of `prec` mentions, in order. */
  function Freed(nlst: seq<Name>, prec: Prec): seq<Name> {
    if nlst == [] then []
    else
      var x := nlst[|nlst| - 1];
      Freed(nlst[..|nlst| - 1], prec) + (if Listed(prec, x) then [] else [x])
  }

  datatype Drained = Drained(out: seq<Name>, left: Prec)

  /** What running the worklist empty takes, in order, and the lists it never got to drop. */
  function Drain(prec: Prec, tmp: seq<Name>): Drained
    decreases |prec|, |tmp|
  {
    if tmp == [] then Drained([], prec)
    else
      var e, rest := tmp[|tmp| - 1], tmp[..|tmp| - 1];
      if e !in prec then
        var d := Drain(prec, rest);
        Drained([e] + d.out, d.left)
      else
        var less := prec - {e};
        assert prec.Keys == less.Keys + {e};
        var d := Drain(less, rest + Freed(prec[e], less));
        Drained([e] + d.out, d.left)
  }

  /** One round: what is popped comes first, and the rest is drained from there. */
  lemma DrainRound(prec: Prec, tmp: seq<Name>, done: seq<Name>)
    requires tmp != []
    ensures
      var e, rest := tmp[|tmp| - 1], tmp[..|tmp| - 1];
      var less := prec - {e};
      var d := Drain(less, if e in prec then rest + Freed(prec[e], less) else rest);
      && Drain(prec, tmp).left == d.left && done + Drain(prec, tmp).out == done + [e] + d.out
      && (if e in prec then |less| < |prec| else less == prec)
  {
    var e, rest := tmp[|tmp| - 1], tmp[..|tmp| - 1];
    if e in prec {
      assert prec.Keys == (prec - {e}).Keys + {e};
      Regroup(done, e, Drain(prec - {e}, rest + Freed(prec[e], prec - {e})).out);
    } else {
      assert prec - {e} == prec;
      Regroup(done, e, Drain(prec, rest).out);
    }
  }

  lemma Regroup(a: seq<Name>, e: Name, b: seq<Name>)
    ensures a + ([e] + b) == a + [e] + b
  {
  }

  ghost function GraphOf(prec: Prec): Graph<Name> {
    map e | e in prec :: Elements(prec[e])
  }

  ghost predicate DupFree(prec: Prec) {
    forall e :: e in prec ==> NoDup(prec[e])
  }

  /** `tmp` starts as the names of `base` that no list mentions. */
  ghost predicate Roots(prec: Prec, base: set<Name>, tmp: seq<Name>) {
    NoDup(tmp) && forall x :: x in tmp <==> x in base && !Listed(prec, x)
  }

  /** Whatever lists `popped[i]` was taken before it. */
  ghost predicate Preceded(prec: Prec, popped: seq<Name>, i: nat)
    requires i < |popped|
  {
    forall x :: x in prec && popped[i] in prec[x] ==> x in popped[..i]
  }

  ghost predicate Draining(prec0: Prec, base: set<Name>, prec: Prec, tmp: seq<Name>, popped: seq<Name>) {
    && prec == prec0 - Elements(popped)
    && (forall x :: x in tmp || x in popped <==> (x in base || Listed(prec0, x)) && !Listed(prec, x))
    && (forall i :: 0 <= i < |popped| ==> Preceded(prec0, popped, i))
  }

  lemma {:induction false} FreedIs(nlst: seq<Name>, prec: Prec)
    ensures forall x :: x in Freed(nlst, prec) <==> x in nlst && !Listed(prec, x)
    ensures NoDup(nlst) ==> NoDup(Freed(nlst, prec))
  {
    if nlst != [] {
      var init := nlst[..|nlst| - 1];
      FreedIs(init, prec);
      assert nlst == init + [nlst[|nlst| - 1]];
    }
  }

  lemma NoDupUnless<T>(a: seq<T>, b: seq<T>, c: seq<T>)
    requires NoDup(a + b) && NoDup(c) && forall x :: x in c ==> x !in a && x !in b
    ensures NoDup(a + (b + c))
  {
    var s := a + (b + c);
    forall i, j | 0 <= i < j < |s|
      ensures s[i] != s[j]
    {
      if j < |a + b| {
        assert s[i] == (a + b)[i] && s[j] == (a + b)[j];
      } else {
        assert s[j] == c[j - |a + b|] && s[j] in c;
        if i < |a| {
          assert s[i] == a[i];
        } else if i < |a + b| {
          assert s[i] == b[i - |a|];
        } else {
          assert s[i] == c[i - |a + b|];
        }
      }
    }
  }

  /** The last name of `tmp` moves to `popped`. */
  lemma Shift<T>(popped: seq<T>, tmp: seq<T>)
    requires tmp != []
    ensures popped + tmp == popped + tmp[..|tmp| - 1] + [tmp[|tmp| - 1]]
    ensures forall x :: x in tmp <==> x in tmp[..|tmp| - 1] || x == tmp[|tmp| - 1]
    ensures forall x :: x in popped + [tmp[|tmp| - 1]] <==> x in popped || x == tmp[|tmp| - 1]
    ensures NoDup(popped + tmp) ==> NoDup(popped + [tmp[|tmp| - 1]] + tmp[..|tmp| - 1])
    ensures NoDup(popped + tmp) ==> tmp[|tmp| - 1] !in popped && tmp[|tmp| - 1] !in tmp[..|tmp| - 1]
  {
    var e, rest := tmp[|tmp| - 1], tmp[..|tmp| - 1];
    assert tmp == rest + [e];
    var s, r := popped + tmp, popped + [e] + rest;
    if NoDup(s) {
      assert e == s[|s| - 1];
      forall k | 0 <= k < |popped|
        ensures popped[k] != e
      {
        assert s[k] == popped[k];
      }
      forall k | 0 <= k < |rest|
        ensures rest[k] != e
      {
        assert s[|popped| + k] == rest[k];
      }
      forall i, j | 0 <= i < j < |r|
        ensures r[i] != r[j]
      {
        var i', j' := Spot(i, |popped|, |s|), Spot(j, |popped|, |s|);
        assert r[i] == s[i'] && r[j] == s[j'];
      }
    }
  }

  ghost function Spot(i: nat, n: nat, len: nat): nat
    requires n < len
  {
    if i < n then i else if i == n then len - 1 else i - 1
  }

  /** Dropping the list of `e` unlists exactly the names that only it mentioned. */
  lemma DropUnlists(prec: Prec, e: Name)
    requires e in prec
    ensures forall x :: Listed(prec, x) <==> Listed(prec - {e}, x) || x in prec[e]
  {
    var less := prec - {e};
    forall x | Listed(prec, x)
      ensures Listed(less, x) || x in prec[e]
    {
      var y :| y in prec && x in prec[y];
      assert y != e ==> y in less && less[y] == prec[y];
    }
    forall x | Listed(less, x)
      ensures Listed(prec, x)
    {
      var y :| y in less && x in less[y];
      assert y in prec && x in prec[y];
    }
  }

  /** Everything that lists a name of `tmp` has been taken. */
  lemma ListersTaken(prec0: Prec, base: set<Name>, prec: Prec, tmp: seq<Name>, popped: seq<Name>, e: Name)
    requires Draining(prec0, base, prec, tmp, popped) && e in tmp
    ensures forall x :: x in prec0 && e in prec0[x] ==> x in popped
  {
    forall x | x in prec0 && e in prec0[x]
      ensures x in popped
    {
      assert x in prec ==> Listed(prec, e);
    }
  }

  lemma PopPreceded(prec0: Prec, popped: seq<Name>, e: Name)
    requires forall i :: 0 <= i < |popped| ==> Preceded(prec0, popped, i)
    requires forall x :: x in prec0 && e in prec0[x] ==> x in popped
    ensures forall i :: 0 <= i < |popped| + 1 ==> Preceded(prec0, popped + [e], i)
  {
    var more := popped + [e];
    forall i | 0 <= i < |more|
      ensures Preceded(prec0, more, i)
    {
      if i < |popped| {
        assert Preceded(prec0, popped, i);
        assert more[..i] == popped[..i];
      } else {
        assert more[..i] == popped;
      }
    }
  }

  /** One round of the worklist. */
  lemma RoundKeeps(prec0: Prec, base: set<Name>, prec: Prec, tmp: seq<Name>, popped: seq<Name>)
    requires Draining(prec0, base, prec, tmp, popped) && tmp != []
    ensures
      var e, rest := tmp[|tmp| - 1], tmp[..|tmp| - 1];
      Draining(prec0, base, prec - {e}, rest + (if e in prec then Freed(prec[e], prec - {e}) else []), popped + [e])
  {
    var e, rest := tmp[|tmp| - 1], tmp[..|tmp| - 1];
    ListersTaken(prec0, base, prec, tmp, popped, e);
    PopPreceded(prec0, popped, e);
    Shift(popped, tmp);
    assert prec0 - Elements(popped + [e]) == prec - {e};
    if e in prec {
      DropUnlists(prec, e);
      FreedIs(prec[e], prec - {e});
      forall x | x in Freed(prec[e], prec - {e})
        ensures Listed(prec0, x)
      {
        assert e in prec0 && x in prec0[e];
      }
    } else {
      assert prec - {e} == prec;
      assert rest + [] == rest;
    }
  }

  /** When no list repeats a name, no name is taken twice. */
  lemma RoundOnce(prec0: Prec, base: set<Name>, prec: Prec, tmp: seq<Name>, popped: seq<Name>)
    requires Draining(prec0, base, prec, tmp, popped) && tmp != [] && DupFree(prec0) && NoDup(popped + tmp)
    ensures
      var e, rest := tmp[|tmp| - 1], tmp[..|tmp| - 1];
      NoDup(popped + [e] + (rest + (if e in prec then Freed(prec[e], prec - {e}) else [])))
  {
    var e, rest := tmp[|tmp| - 1], tmp[..|tmp| - 1];
    Shift(popped, tmp);
    if e in prec {
      DropUnlists(prec, e);
      FreedIs(prec[e], prec - {e});
      forall x | x in Freed(prec[e], prec - {e})
        ensures x !in popped + [e] && x !in rest
      {
        assert Listed(prec, x);
      }
      assert prec0[e] == prec[e];
      NoDupUnless(popped + [e], rest, Freed(prec[e], prec - {e}));
    } else {
      assert rest + [] == rest;
    }
  }

  lemma {:induction false} DrainEnds(prec0: Prec, base: set<Name>, prec: Prec, tmp: seq<Name>, popped: seq<Name>)
    requires Draining(prec0, base, prec, tmp, popped)
    ensures Draining(prec0, base, Drain(prec, tmp).left, [], popped + Drain(prec, tmp).out)
    ensures DupFree(prec0) && NoDup(popped + tmp) ==> NoDup(popped + Drain(prec, tmp).out)
    decreases |prec|, |tmp|
  {
    hide Draining, DupFree, NoDup, Freed;
    if tmp == [] {
      assert popped + Drain(prec, tmp).out == popped == popped + tmp;
    } else {
      var e, rest := tmp[|tmp| - 1], tmp[..|tmp| - 1];
      RoundKeeps(prec0, base, prec, tmp, popped);
      if DupFree(prec0) && NoDup(popped + tmp) {
        RoundOnce(prec0, base, prec, tmp, popped);
      }
      DrainRound(prec, tmp, popped);
      hide Drain;
      if e in prec {
        DrainEnds(prec0, base, prec - {e}, rest + Freed(prec[e], prec - {e}), popped + [e]);
      } else {
        assert rest + [] == rest;
        DrainEnds(prec0, base, prec, rest, popped + [e]);
      }
    }
  }

  method AppendFreed(tmp: seq<Name>, nlst: seq<Name>, prec: Prec) returns (r: seq<Name>)
    ensures r == tmp + Freed(nlst, prec)
  {
    r := tmp;
    for i := 0 to |nlst|
      invariant r == tmp + Freed(nlst[..i], prec)
    {
      assert nlst[..i + 1][..i] == nlst[..i];
      if !Listed(prec, nlst[i]) {
        r := r + [nlst[i]];
      }
    }
    assert nlst[..|nlst|] == nlst;
  }

  method Reverse(q: seq<Name>) returns (r: seq<Name>)
    ensures r == Reversed(q)
  {
    r := [];
    for i := 0 to |q|
      invariant |r| == i && forall k :: 0 <= k < i ==> r[k] == q[i - 1 - k]
    {
      r := [q[i]] + r;
    }
  }

  /** With no lists the names are taken from the end. */
  lemma {:induction false} DrainLoose(tmp: seq<Name>)
    ensures Drain(map[], tmp) == Drained(Reversed(tmp), map[])
    decreases |tmp|
  {
    if tmp != [] {
      DrainLoose(tmp[..|tmp| - 1]);
      assert Reversed(tmp) == [tmp[|tmp| - 1]] + Reversed(tmp[..|tmp| - 1]);
    }
  }

  lemma ReversedTwice<T>(q: seq<T>)
    ensures Reversed(Reversed(q)) == q
  {
  }

  // --- cycles

  ghost function Reversed<T>(w: seq<T>): (r: seq<T>)
    ensures |r| == |w| && forall i :: 0 <= i < |w| ==> r[i] == w[|w| - 1 - i]
  {
    seq(|w|, i requires 0 <= i < |w| => w[|w| - 1 - i])
  }

  /** A cycle can be walked the other way round along the opposite edges. */
  lemma ReversedCycle<T(!new)>(g: Graph<T>, h: Graph<T>, s: set<T>)
    requires Cyclic(g, s) && forall x, y :: x in s && y in s && Edge(g, x, y) ==> Edge(h, y, x)
    ensures Cyclic(h, s)
  {
    var w :| CycleIn(g, s, w);
    var r := Reversed(w);
    forall i | 0 <= i < |r| - 1
      ensures Edge(h, r[i], r[i + 1])
    {
      var k := |w| - 2 - i;
      assert Edge(g, w[k], w[k + 1]);
    }
    assert CycleIn(h, s, r);
  }

  ghost function Listers(prec: Prec): Graph<Name> {
    map x | x in prec :: set y | y in prec && x in prec[y]
  }

  lemma ListedGoesOn(prec: Prec)
    requires forall x :: x in prec ==> Listed(prec, x)
    ensures forall x :: x in prec.Keys ==> Continues(Listers(prec), prec.Keys, x)
  {
    forall x | x in prec.Keys
      ensures Continues(Listers(prec), prec.Keys, x)
    {
      var y :| y in prec && x in prec[y];
      assert Edge(Listers(prec), x, y);
    }
  }

  lemma BackEdges(prec: Prec)
    ensures forall x, y :: x in prec.Keys && y in prec.Keys && Edge(Listers(prec), x, y) ==> Edge(GraphOf(prec), y, x)
  {
  }

  /** If every list is mentioned by another, following them back runs into a cycle. */
  lemma ListedCycle(prec: Prec)
    requires prec.Keys != {} && forall x :: x in prec ==> Listed(prec, x)
    ensures Cyclic(GraphOf(prec), prec.Keys)
  {
    hide *;
    ListedGoesOn(prec);
    BackEdges(prec);
    SinkOrCycle(Listers(prec), prec.Keys);
    ReversedCycle(Listers(prec), GraphOf(prec), prec.Keys);
  }

  lemma SubGraph(left: Prec, prec: Prec)
    requires left.Keys <= prec.Keys && forall x :: x in left ==> left[x] == prec[x]
    ensures forall x, y :: x in left.Keys && Edge(GraphOf(left), x, y) ==> Edge(GraphOf(prec), x, y)
  {
  }

  lemma LeftoverListed(prec0: Prec, base: set<Name>, left: Prec, popped: seq<Name>)
    requires Draining(prec0, base, left, [], popped) && prec0.Keys <= base
    ensures left.Keys <= prec0.Keys
    ensures forall x :: x in left ==> left[x] == prec0[x] && Listed(left, x)
  {
  }

  /** Lists that are never dropped hold a cycle. */
  lemma LeftoverCycle(prec0: Prec, base: set<Name>, left: Prec, popped: seq<Name>)
    requires Draining(prec0, base, left, [], popped) && prec0.Keys <= base && left.Keys != {}
    ensures Cyclic(GraphOf(prec0), prec0.Keys)
  {
    hide *;
    LeftoverListed(prec0, base, left, popped);
    SubGraph(left, prec0);
    ListedCycle(left);
    CyclicGrows(GraphOf(left), left.Keys, GraphOf(prec0), prec0.Keys);
  }

  lemma {:induction false} Climbs(prec: Prec, out: seq<Name>, w: seq<Name>, i: nat, k: nat)
    requires Walk(GraphOf(prec), w) && k < |w| && i < |out| && out[i] == w[k]
    requires forall j :: 0 <= j < |out| ==> Preceded(prec, out, j)
    ensures exists j :: 0 <= j <= i - k && out[j] == w[0]
    decreases k
  {
    if k > 0 {
      assert Edge(GraphOf(prec), w[k - 1], w[k - 1 + 1]);
      assert Preceded(prec, out, i);
      var j :| 0 <= j < i && out[j] == w[k - 1];
      Climbs(prec, out, w, j, k - 1);
    } else {
      assert out[i] == w[0];
    }
  }

  ghost function FirstAt(out: seq<Name>, x: Name): (i: nat)
    requires x in out
    ensures i < |out| && out[i] == x && x !in out[..i]
  {
    if out[0] == x then 0
    else
      assert out == [out[0]] + out[1..];
      var i := FirstAt(out[1..], x) + 1;
      assert out[..i] == [out[0]] + out[1..][..i - 1];
      i
  }

  /** An order in which every lister comes first leaves no room for a cycle. */
  lemma PrecededAcyclic(prec: Prec, out: seq<Name>)
    requires forall x :: x in prec ==> x in out
    requires forall j :: 0 <= j < |out| ==> Preceded(prec, out, j)
    ensures !Cyclic(GraphOf(prec), prec.Keys)
  {
    forall w: seq<Name>
      ensures !CycleIn(GraphOf(prec), prec.Keys, w)
    {
      if CycleIn(GraphOf(prec), prec.Keys, w) {
        assert w[|w| - 1] in prec;
        var i := FirstAt(out, w[|w| - 1]);
        Climbs(prec, out, w, i, |w| - 1);
      }
    }
  }

  lemma DrainStarts(prec: Prec, base: set<Name>, tmp: seq<Name>)
    requires prec.Keys <= base && Roots(prec, base, tmp)
    ensures Draining(prec, base, prec, tmp, []) && NoDup([] + tmp)
  {
    assert prec - Elements<Name>([]) == prec;
    assert [] + tmp == tmp;
  }

  lemma DrainComplete(prec: Prec, base: set<Name>, d: Drained)
    requires Draining(prec, base, d.left, [], d.out) && d.left.Keys == {} && prec.Keys <= base
    ensures forall x :: x in d.out <==> x in base || Listed(prec, x)
    ensures forall i :: 0 <= i < |d.out| ==> Preceded(prec, d.out, i)
    ensures forall x :: x in prec ==> x in d.out
  {
  }

  /** The worklist gets through every list exactly when they hold no cycle, and then it has taken every
      name, each after all the names that list it, and once unless a list repeats a name. */
  lemma DrainSorts(prec: Prec, base: set<Name>, tmp: seq<Name>)
    requires prec.Keys <= base && Roots(prec, base, tmp)
    ensures
      var d := Drain(prec, tmp);
      && (d.left.Keys == {} <==> !Cyclic(GraphOf(prec), prec.Keys))
      && (d.left.Keys == {} ==>
            && (forall x :: x in d.out <==> x in base || Listed(prec, x))
            && (forall i :: 0 <= i < |d.out| ==> Preceded(prec, d.out, i)))
      && (DupFree(prec) ==> NoDup(d.out))
  {
    hide *;
    var d := Drain(prec, tmp);
    DrainStarts(prec, base, tmp);
    DrainEnds(prec, base, prec, tmp, []);
    assert [] + d.out == d.out;
    if d.left.Keys == {} {
      DrainComplete(prec, base, d);
      PrecededAcyclic(prec, d.out);
    } else {
      LeftoverCycle(prec, base, d.left, d.out);
    }
  }

  // --- how often a name is taken

  /** Of the lists that mention `x`, that of `e` is the last to be dropped. */
  ghost predicate DroppedLast(prec: Prec, out: seq<Name>, x: Name, e: Name) {
    && e in prec && x in prec[e] && e in out
    && forall y :: y in prec && x in prec[y] ==> y in out && FirstAt(out, y) <= FirstAt(out, e)
  }

  function Times(q: seq<Name>, x: Name): nat {
    multiset(q)[x]
  }

  lemma TimesMore(a: seq<Name>, b: seq<Name>, x: Name)
    ensures Times(a + b, x) == Times(a, x) + Times(b, x)
  {
  }

  lemma {:induction false} FreedTimes(nlst: seq<Name>, prec: Prec, x: Name)
    ensures Times(Freed(nlst, prec), x) == if Listed(prec, x) then 0 else Times(nlst, x)
  {
    hide Listed;
    if nlst != [] {
      var init, last := nlst[..|nlst| - 1], nlst[|nlst| - 1];
      FreedTimes(init, prec, x);
      assert nlst == init + [last];
      TimesMore(init, [last], x);
      TimesMore(Freed(init, prec), if Listed(prec, last) then [] else [last], x);
    }
  }

  lemma {:induction false} LeftListed(prec: Prec, tmp: seq<Name>, x: Name)
    ensures Listed(Drain(prec, tmp).left, x) ==> Listed(prec, x)
    decreases |prec|, |tmp|
  {
    hide Listed, Freed;
    if tmp != [] {
      var e, rest := tmp[|tmp| - 1], tmp[..|tmp| - 1];
      DrainRound(prec, tmp, []);
      hide Drain;
      if e in prec {
        DropUnlists(prec, e);
        LeftListed(prec - {e}, rest + Freed(prec[e], prec - {e}), x);
      } else {
        LeftListed(prec, rest, x);
      }
    }
  }

  /** What comes first comes before what comes later. */
  lemma FirstShifts(e: Name, out: seq<Name>, y: Name)
    requires y in out
    ensures y in [e] + out && FirstAt([e] + out, y) == if y == e then 0 else FirstAt(out, y) + 1
  {
    assert ([e] + out)[1..] == out;
  }

  lemma DropFirst(prec: Prec, e: Name, out: seq<Name>, x: Name, z: Name)
    requires e in prec && DroppedLast(prec - {e}, out, x, z)
    ensures DroppedLast(prec, [e] + out, x, z)
  {
    FirstShifts(e, out, z);
    forall y | y in prec && x in prec[y]
      ensures y in [e] + out && FirstAt([e] + out, y) <= FirstAt([e] + out, z)
    {
      if y != e {
        assert y in prec - {e};
        FirstShifts(e, out, y);
      } else {
        assert ([e] + out)[0] == e;
      }
    }
  }

  lemma PassOver(prec: Prec, e: Name, out: seq<Name>, x: Name, z: Name)
    requires e !in prec && DroppedLast(prec, out, x, z)
    ensures DroppedLast(prec, [e] + out, x, z)
  {
    forall y | y in prec && x in prec[y]
      ensures y in [e] + out && FirstAt([e] + out, y) <= FirstAt([e] + out, z)
    {
      FirstShifts(e, out, y);
      FirstShifts(e, out, z);
    }
  }

  lemma OnlyLister(prec: Prec, e: Name, out: seq<Name>, x: Name)
    requires e in prec && x in prec[e] && !Listed(prec - {e}, x)
    ensures DroppedLast(prec, [e] + out, x, e)
  {
    assert ([e] + out)[0] == e;
    forall y | y in prec && x in prec[y]
      ensures y == e
    {
      assert y == e || y in prec - {e};
    }
  }

  /** `x` has been taken as often as `tmp` held it, and once more for every time that the last list to be dropped
      that mentions it does so. */
  ghost predicate TakenTimes(prec: Prec, tmp: seq<Name>, d: Drained, x: Name) {
    if Listed(prec, x) && !Listed(d.left, x)
    then exists e :: e in prec && DroppedLast(prec, d.out, x, e) && Times(d.out, x) == Times(tmp, x) + Times(prec[e], x)
    else Times(d.out, x) == Times(tmp, x)
  }

  /** How often the worklist takes a name, repeated or not. */
  lemma {:induction false} DrainTimes(prec: Prec, tmp: seq<Name>, x: Name)
    ensures TakenTimes(prec, tmp, Drain(prec, tmp), x)
    decreases |prec|, |tmp|
  {
    hide Freed, TakenTimes;
    if tmp == [] {
      NoneTaken(prec, x);
    } else {
      var e, rest := tmp[|tmp| - 1], tmp[..|tmp| - 1];
      DrainRound(prec, tmp, []);
      assert tmp == rest + [e] && [] + [e] == [e] && [] + Drain(prec, tmp).out == Drain(prec, tmp).out;
      hide Drain;
      if e in prec {
        var less := prec - {e};
        DrainTimes(less, rest + Freed(prec[e], less), x);
        LeftListed(less, rest + Freed(prec[e], less), x);
        DropTimes(prec, rest, e, x, Drain(less, rest + Freed(prec[e], less)));
      } else {
        DrainTimes(prec, rest, x);
        PassTimes(prec, rest, e, x, Drain(prec, rest));
      }
    }
  }

  lemma NoneTaken(prec: Prec, x: Name)
    ensures TakenTimes(prec, [], Drained([], prec), x)
  {
  }

  lemma PassTimes(prec: Prec, rest: seq<Name>, e: Name, x: Name, d: Drained)
    requires e !in prec && TakenTimes(prec, rest, d, x)
    ensures TakenTimes(prec, rest + [e], Drained([e] + d.out, d.left), x)
  {
    TimesMore(rest, [e], x);
    TimesMore([e], d.out, x);
    hide Listed, Times, DroppedLast;
    if Listed(prec, x) && !Listed(d.left, x) {
      var z :| z in prec && DroppedLast(prec, d.out, x, z) && Times(d.out, x) == Times(rest, x) + Times(prec[z], x);
      PassOver(prec, e, d.out, x, z);
    }
  }

  lemma DropTimes(prec: Prec, rest: seq<Name>, e: Name, x: Name, d: Drained)
    requires e in prec
    requires
      var less := prec - {e};
      TakenTimes(less, rest + Freed(prec[e], less), d, x) && (Listed(d.left, x) ==> Listed(less, x))
    ensures TakenTimes(prec, rest + [e], Drained([e] + d.out, d.left), x)
  {
    var less := prec - {e};
    var freed := Freed(prec[e], less);
    DropUnlists(prec, e);
    FreedTimes(prec[e], less, x);
    TimesMore(rest, freed, x);
    TimesMore(rest, [e], x);
    TimesMore([e], d.out, x);
    NoTimes(prec[e], x);
    hide Listed, Times, DroppedLast, Freed;
    if Listed(less, x) {
      if !Listed(d.left, x) {
        var z :| z in less && DroppedLast(less, d.out, x, z)
                 && Times(d.out, x) == Times(rest + freed, x) + Times(less[z], x);
        DropFirst(prec, e, d.out, x, z);
      }
    } else if x in prec[e] {
      OnlyLister(prec, e, d.out, x);
    }
  }

  lemma NoTimes(q: seq<Name>, x: Name)
    ensures x !in q <==> Times(q, x) == 0
  {
  }
}
