/** `use_rec` and `process_use`: which libraries a target links with, and in which order. */
module UseOrder {
  import opened Basics
  import opened Graphs
  import opened Worklist

  /** `uses[y]` is the `use` list of the target named `y`; a name in `stlib` has its STLIB variable set, and
      stands for an external library that is never followed. */
  datatype Targets = Targets(uses: map<Name, seq<Name>>, stlib: set<Name>)

  /** What the walk has recorded: the targets met, in order, the names that are no target, who uses what. */
  datatype Uses = Uses(seen: seq<Name>, notTargets: set<Name>, prec: Prec, uselib: seq<Name>)

  function Record(prec: Prec, x: Name, user: Name): Prec {
    prec[x := (if x in prec then prec[x] else []) + [user]]
  }

  function Visit(w: Targets, u: Uses, name: Name): (r: Uses)
    ensures u.seen <= r.seen
    decreases |w.uses.Keys - Elements(u.seen)|, 1, 0
  {
    if name in u.notTargets || name in u.seen then u
    else if name !in w.uses then u.(uselib := u.uselib + [name], notTargets := u.notTargets + {name})
    else
      var met := u.(seen := u.seen + [name]);
      Shrinks(w.uses.Keys, u.seen, name);
      VisitAll(w, met, name, w.uses[name])
  }

  function VisitAll(w: Targets, u: Uses, user: Name, names: seq<Name>): (r: Uses)
    ensures u.seen <= r.seen
    decreases |w.uses.Keys - Elements(u.seen)|, 2, |names|
  {
    if names == [] then u
    else
      var x, rest := names[0], names[1..];
      if x in w.stlib then VisitAll(w, u, user, rest)
      else
        var v := Visit(w, u.(prec := Record(u.prec, x, user)), x);
        NoMoreLeft(w.uses.Keys, u.seen, v.seen);
        VisitAll(w, v, user, rest)
  }

  lemma Shrinks(all: set<Name>, seen: seq<Name>, name: Name)
    requires name in all && name !in seen
    ensures |all - Elements(seen + [name])| < |all - Elements(seen)|
  {
    assert all - Elements(seen) == all - Elements(seen + [name]) + {name};
  }

  lemma NoMoreLeft(all: set<Name>, a: seq<Name>, b: seq<Name>)
    requires a <= b
    ensures |all - Elements(b)| <= |all - Elements(a)|
  {
    assert all - Elements(a) == (all - Elements(b)) + (all * (Elements(b) - Elements(a)));
  }

  // --- what the walk finds

  ghost function Used(w: Targets, y: Name): set<Name>
    requires y in w.uses
  {
    set x | x in w.uses[y] && x !in w.stlib
  }

  ghost function UseGraph(w: Targets): Graph<Name> {
    map y | y in w.uses :: Used(w, y)
  }

  ghost predicate Recorded(prec: Prec, x: Name, y: Name) {
    x in prec && y in prec[x]
  }

  ghost predicate Met(u: Uses, x: Name) {
    x in u.seen || x in u.notTargets
  }

  /** `y` is through: all it uses is met and recorded. */
  ghost predicate Through(w: Targets, u: Uses, y: Name)
    requires y in w.uses
  {
    forall x :: x in Used(w, y) ==> Recorded(u.prec, x, y) && Met(u, x)
  }

  ghost predicate TrueRecord(w: Targets, u: Uses, x: Name, y: Name) {
    y in u.seen && y in w.uses && x in Used(w, y)
  }

  /** The state of the walk while the targets in `open` are being followed. */
  ghost predicate Walked(w: Targets, u: Uses, open: set<Name>) {
    && NoDup(u.seen) && Elements(u.seen) <= w.uses.Keys && u.notTargets !! w.uses.Keys && open <= Elements(u.seen)
    && (forall x, y :: Recorded(u.prec, x, y) ==> TrueRecord(w, u, x, y))
    && (forall x :: x in u.prec ==> u.prec[x] != [])
    && (forall y :: y in u.seen && y !in open ==> Through(w, u, y))
  }

  /** What is on record about the targets met before stays as it is, but for `user` using `names`. */
  ghost predicate RecordsGrow(w: Targets, u: Uses, r: Uses, user: Option<Name>, names: seq<Name>) {
    && (forall x :: Met(u, x) ==> Met(r, x))
    && (forall x, y :: y in u.seen ==>
          (Recorded(r.prec, x, y) <==>
             Recorded(u.prec, x, y) || (user == Some(y) && x in names && x !in w.stlib)))
  }

  lemma RecordIs(prec: Prec, x: Name, user: Name)
    ensures forall a, b :: Recorded(Record(prec, x, user), a, b) <==> Recorded(prec, a, b) || (a == x && b == user)
    ensures forall a :: a in Record(prec, x, user) <==> a in prec || a == x
  {
  }

  lemma {:induction false} VisitWalks(w: Targets, u: Uses, open: set<Name>, name: Name)
    requires Walked(w, u, open)
    ensures
      var r := Visit(w, u, name);
      Walked(w, r, open) && RecordsGrow(w, u, r, None, []) && Met(r, name)
    decreases |w.uses.Keys - Elements(u.seen)|, 1, 0
  {
    if name in u.notTargets || name in u.seen {
    } else if name !in w.uses {
      MissWalks(w, u, open, name);
    } else {
      var met := u.(seen := u.seen + [name]);
      Shrinks(w.uses.Keys, u.seen, name);
      MeetWalks(w, u, open, name);
      VisitAllWalks(w, met, open + {name}, name, w.uses[name]);
      CloseWalks(w, u, open, name, VisitAll(w, met, name, w.uses[name]));
    }
  }

  lemma MissWalks(w: Targets, u: Uses, open: set<Name>, name: Name)
    requires Walked(w, u, open) && name !in w.uses
    ensures
      var r := u.(uselib := u.uselib + [name], notTargets := u.notTargets + {name});
      Walked(w, r, open) && RecordsGrow(w, u, r, None, [])
  {
    var r := u.(uselib := u.uselib + [name], notTargets := u.notTargets + {name});
    forall y | y in r.seen && y !in open
      ensures Through(w, r, y)
    {
      assert Through(w, u, y);
    }
    assert forall x, y :: TrueRecord(w, u, x, y) ==> TrueRecord(w, r, x, y);
  }

  lemma MeetWalks(w: Targets, u: Uses, open: set<Name>, name: Name)
    requires Walked(w, u, open) && name in w.uses && name !in u.seen
    ensures Walked(w, u.(seen := u.seen + [name]), open + {name})
  {
    var r := u.(seen := u.seen + [name]);
    forall y | y in r.seen && y !in open + {name}
      ensures Through(w, r, y)
    {
      assert Through(w, u, y);
    }
    assert forall x, y :: TrueRecord(w, u, x, y) ==> TrueRecord(w, r, x, y);
  }

  /** All the names `name` uses have been visited: it is through. */
  lemma CloseWalks(w: Targets, u: Uses, open: set<Name>, name: Name, r: Uses)
    requires Walked(w, u, open) && name in w.uses && !Met(u, name)
    requires var met := u.(seen := u.seen + [name]);
      && Walked(w, r, open + {name}) && RecordsGrow(w, met, r, Some(name), w.uses[name])
      && (forall x :: x in w.uses[name] && x !in w.stlib ==> Met(r, x))
    ensures Walked(w, r, open) && RecordsGrow(w, u, r, None, []) && Met(r, name)
  {
    var met := u.(seen := u.seen + [name]);
    assert Met(met, name) && forall x :: Met(u, x) ==> Met(met, x);
    assert Through(w, r, name);
    forall y | y in r.seen && y !in open
      ensures Through(w, r, y)
    {
    }
  }

  lemma {:induction false} VisitAllWalks(w: Targets, u: Uses, open: set<Name>, user: Name, names: seq<Name>)
    requires Walked(w, u, open) && user in open && user in w.uses && forall x :: x in names ==> x in w.uses[user]
    ensures
      var r := VisitAll(w, u, user, names);
      && Walked(w, r, open) && RecordsGrow(w, u, r, Some(user), names)
      && (forall x :: x in names && x !in w.stlib ==> Met(r, x))
    decreases |w.uses.Keys - Elements(u.seen)|, 2, |names|
  {
    if names != [] {
      var x, rest := names[0], names[1..];
      assert names == [x] + rest;
      if x in w.stlib {
        VisitAllWalks(w, u, open, user, rest);
      } else {
        var noted := u.(prec := Record(u.prec, x, user));
        var v := Visit(w, noted, x);
        NoMoreLeft(w.uses.Keys, u.seen, v.seen);
        NoteWalks(w, u, open, user, x);
        VisitWalks(w, noted, open, x);
        VisitAllWalks(w, v, open, user, rest);
        ChainRecords(w, u, noted, v, VisitAll(w, v, user, rest), user, x, rest);
      }
    }
  }

  lemma NoteWalks(w: Targets, u: Uses, open: set<Name>, user: Name, x: Name)
    requires Walked(w, u, open) && user in open && user in w.uses && x in Used(w, user)
    ensures Walked(w, u.(prec := Record(u.prec, x, user)), open)
  {
    var r := u.(prec := Record(u.prec, x, user));
    RecordIs(u.prec, x, user);
    forall y | y in r.seen && y !in open
      ensures Through(w, r, y)
    {
      assert Through(w, u, y);
    }
    assert forall a, b :: TrueRecord(w, u, a, b) ==> TrueRecord(w, r, a, b);
    assert TrueRecord(w, r, x, user);
  }

  lemma ChainRecords(w: Targets, u: Uses, noted: Uses, v: Uses, r: Uses, user: Name, x: Name, rest: seq<Name>)
    requires noted == u.(prec := Record(u.prec, x, user)) && x !in w.stlib && u.seen <= v.seen
    requires RecordsGrow(w, noted, v, None, []) && RecordsGrow(w, v, r, Some(user), rest)
    ensures RecordsGrow(w, u, r, Some(user), [x] + rest)
  {
    RecordIs(u.prec, x, user);
    assert forall a :: Met(u, a) == Met(noted, a);
  }

  // --- nothing is met that the target does not reach

  ghost predicate Trail(w: Targets, names: set<Name>, p: seq<Name>, x: Name) {
    |p| > 0 && p[0] in names && p[|p| - 1] == x && Walk(UseGraph(w), p)
  }

  ghost predicate Reaches(w: Targets, names: set<Name>, x: Name) {
    exists p :: Trail(w, names, p, x)
  }

  lemma ReachesNext(w: Targets, names: set<Name>, y: Name, x: Name)
    requires Reaches(w, names, y) && y in w.uses && x in Used(w, y)
    ensures Reaches(w, names, x)
  {
    var p :| Trail(w, names, p, y);
    assert Trail(w, names, p + [x], x);
  }

  lemma ReachesItself(w: Targets, names: set<Name>, x: Name)
    requires x in names
    ensures Reaches(w, names, x)
  {
    assert Trail(w, names, [x], x);
  }

  // --- each user is recorded once, as long as no `use` list repeats a target

  /** The targets a `use` list makes the walk follow. */
  ghost function Linked(w: Targets, names: seq<Name>): seq<Name> {
    if names == [] then []
    else (if names[0] in w.uses && names[0] !in w.stlib then [names[0]] else []) + Linked(w, names[1..])
  }

  /** No target in reach lists a target twice. */
  ghost predicate NoRepeats(w: Targets, all: set<Name>) {
    forall y :: y in w.uses && Reaches(w, all, y) ==> NoDup(Linked(w, w.uses[y]))
  }

  ghost predicate TargetsOnce(w: Targets, prec: Prec) {
    forall x :: x in prec && x in w.uses ==> NoDup(prec[x])
  }

  lemma {:induction false} LinkedIs(w: Targets, names: seq<Name>)
    ensures forall x :: x in Linked(w, names) <==> x in names && x in w.uses && x !in w.stlib
  {
    if names != [] {
      assert names == [names[0]] + names[1..];
      LinkedIs(w, names[1..]);
    }
  }

  lemma LinkedRest(w: Targets, names: seq<Name>)
    requires names != [] && NoDup(Linked(w, names))
    ensures NoDup(Linked(w, names[1..]))
    ensures names[0] in w.uses && names[0] !in w.stlib ==> names[0] !in names[1..]
  {
    var m := Linked(w, names[1..]);
    LinkedIs(w, names[1..]);
    assert [] + m == m;
    hide NoDup;
    if names[0] in w.uses && names[0] !in w.stlib {
      NoDupRest(names[0], m);
    }
  }

  lemma NoDupRest<T>(x: T, q: seq<T>)
    requires NoDup([x] + q)
    ensures NoDup(q) && x !in q
  {
    var all := [x] + q;
    forall i | 0 <= i < |q|
      ensures q[i] != x
    {
      assert all[0] == x && all[i + 1] == q[i];
    }
    forall i, j | 0 <= i < j < |q|
      ensures q[i] != q[j]
    {
      assert all[i + 1] == q[i] && all[j + 1] == q[j];
    }
  }

  lemma RecordOnce(w: Targets, prec: Prec, x: Name, user: Name)
    requires TargetsOnce(w, prec) && (x in w.uses ==> !Recorded(prec, x, user))
    ensures TargetsOnce(w, Record(prec, x, user))
  {
  }

  /** The targets among `names` have not been recorded for `user`. */
  ghost predicate Unrecorded(w: Targets, prec: Prec, user: Name, names: seq<Name>) {
    forall n :: n in names && n in w.uses ==> !Recorded(prec, n, user)
  }

  lemma StillUnrecorded(w: Targets, u: Uses, open: set<Name>, user: Name, x: Name, rest: seq<Name>)
    requires Walked(w, u, open) && user in open && user in w.uses && x in Used(w, user)
    requires (x in w.uses ==> x !in rest) && Unrecorded(w, u.prec, user, rest)
    ensures
      var noted := u.(prec := Record(u.prec, x, user));
      var v := Visit(w, noted, x);
      && Walked(w, noted, open) && Walked(w, v, open) && Unrecorded(w, v.prec, user, rest)
  {
    NoteWalks(w, u, open, user, x);
    RecordIs(u.prec, x, user);
    VisitWalks(w, u.(prec := Record(u.prec, x, user)), open, x);
  }

  lemma {:induction false} VisitDupFree(w: Targets, u: Uses, open: set<Name>, all: set<Name>, name: Name)
    requires Walked(w, u, open) && NoRepeats(w, all) && Reaches(w, all, name) && TargetsOnce(w, u.prec)
    ensures TargetsOnce(w, Visit(w, u, name).prec)
    decreases |w.uses.Keys - Elements(u.seen)|, 1, 0
  {
    hide Reaches, TargetsOnce;
    if name in u.notTargets || name in u.seen || name !in w.uses {
    } else {
      Shrinks(w.uses.Keys, u.seen, name);
      MeetWalks(w, u, open, name);
      NeverYet(w, u, name);
      VisitAllDupFree(w, u.(seen := u.seen + [name]), open + {name}, all, name, w.uses[name]);
    }
  }

  lemma NeverYet(w: Targets, u: Uses, name: Name)
    requires name !in u.seen && forall x, y :: Recorded(u.prec, x, y) ==> TrueRecord(w, u, x, y)
    ensures forall names :: Unrecorded(w, u.prec, name, names)
  {
  }

  lemma {:induction false} VisitAllDupFree(w: Targets, u: Uses, open: set<Name>, all: set<Name>, user: Name,
                                           names: seq<Name>)
    requires Walked(w, u, open) && NoRepeats(w, all) && Reaches(w, all, user) && TargetsOnce(w, u.prec)
    requires user in open && user in w.uses && NoDup(Linked(w, names)) && Unrecorded(w, u.prec, user, names)
    requires forall x :: x in names ==> x in w.uses[user]
    ensures TargetsOnce(w, VisitAll(w, u, user, names).prec)
    decreases |w.uses.Keys - Elements(u.seen)|, 2, |names|
  {
    if names != [] {
      var x, rest := names[0], names[1..];
      assert names == [x] + rest;
      LinkedRest(w, names);
      hide NoRepeats, TargetsOnce, Reaches, Linked;
      if x in w.stlib {
        VisitAllDupFree(w, u, open, all, user, rest);
      } else {
        var noted := u.(prec := Record(u.prec, x, user));
        var v := Visit(w, noted, x);
        NoMoreLeft(w.uses.Keys, u.seen, v.seen);
        StillUnrecorded(w, u, open, user, x, rest);
        RecordOnce(w, u.prec, x, user);
        ReachesNext(w, all, user, x);
        hide Walked, Recorded, RecordsGrow, Visit, Unrecorded;
        VisitDupFree(w, noted, open, all, x);
        VisitAllDupFree(w, v, open, all, user, rest);
      }
    }
  }

  ghost predicate AllReached(w: Targets, u: Uses, names: set<Name>) {
    forall x :: Met(u, x) ==> Reaches(w, names, x)
  }

  lemma {:induction false} VisitReaches(w: Targets, u: Uses, all: set<Name>, name: Name)
    requires AllReached(w, u, all) && Reaches(w, all, name)
    ensures AllReached(w, Visit(w, u, name), all)
    decreases |w.uses.Keys - Elements(u.seen)|, 1, 0
  {
    hide Reaches;
    if name in u.notTargets || name in u.seen || name !in w.uses {
    } else {
      Shrinks(w.uses.Keys, u.seen, name);
      VisitAllReaches(w, u.(seen := u.seen + [name]), all, name, w.uses[name]);
    }
  }

  lemma {:induction false} VisitAllReaches(w: Targets, u: Uses, all: set<Name>, user: Name, names: seq<Name>)
    requires AllReached(w, u, all) && user in w.uses && Reaches(w, all, user)
    requires forall x :: x in names ==> x in w.uses[user]
    ensures AllReached(w, VisitAll(w, u, user, names), all)
    decreases |w.uses.Keys - Elements(u.seen)|, 2, |names|
  {
    hide Reaches;
    if names != [] {
      var x, rest := names[0], names[1..];
      assert names == [x] + rest;
      if x in w.stlib {
        VisitAllReaches(w, u, all, user, rest);
      } else {
        var noted := u.(prec := Record(u.prec, x, user));
        var v := Visit(w, noted, x);
        NoMoreLeft(w.uses.Keys, u.seen, v.seen);
        ReachesNext(w, all, user, x);
        VisitReaches(w, noted, all, x);
        VisitAllReaches(w, v, all, user, rest);
      }
    }
  }

  // --- names that are no target become external libraries, each once

  ghost predicate External(u: Uses, given: seq<Name>) {
    given <= u.uselib && NoDup(u.uselib[|given|..]) && Elements(u.uselib[|given|..]) == u.notTargets
  }

  lemma MissExternal(u: Uses, given: seq<Name>, name: Name)
    requires External(u, given) && name !in u.notTargets
    ensures External(u.(uselib := u.uselib + [name], notTargets := u.notTargets + {name}), given)
  {
    assert (u.uselib + [name])[|given|..] == u.uselib[|given|..] + [name];
  }

  lemma {:induction false} VisitExternal(w: Targets, u: Uses, given: seq<Name>, name: Name)
    requires External(u, given)
    ensures External(Visit(w, u, name), given)
    decreases |w.uses.Keys - Elements(u.seen)|, 1, 0
  {
    hide External;
    if name in u.notTargets || name in u.seen {
    } else if name !in w.uses {
      MissExternal(u, given, name);
    } else {
      Shrinks(w.uses.Keys, u.seen, name);
      SameExternal(u, u.(seen := u.seen + [name]), given);
      VisitAllExternal(w, u.(seen := u.seen + [name]), given, name, w.uses[name]);
    }
  }

  lemma SameExternal(u: Uses, v: Uses, given: seq<Name>)
    requires External(u, given) && v.uselib == u.uselib && v.notTargets == u.notTargets
    ensures External(v, given)
  {
  }

  lemma {:induction false} VisitAllExternal(w: Targets, u: Uses, given: seq<Name>, user: Name, names: seq<Name>)
    requires External(u, given)
    ensures External(VisitAll(w, u, user, names), given)
    decreases |w.uses.Keys - Elements(u.seen)|, 2, |names|
  {
    hide External;
    if names != [] {
      var x, rest := names[0], names[1..];
      if x in w.stlib {
        VisitAllExternal(w, u, given, user, rest);
      } else {
        var noted := u.(prec := Record(u.prec, x, user));
        var v := Visit(w, noted, x);
        NoMoreLeft(w.uses.Keys, u.seen, v.seen);
        SameExternal(u, noted, given);
        VisitExternal(w, noted, given, x);
        VisitAllExternal(w, v, given, user, rest);
      }
    }
  }

  // --- the whole walk, from the names the target itself lists

  function VisitNames(w: Targets, u: Uses, names: seq<Name>): Uses {
    if names == [] then u else Visit(w, VisitNames(w, u, names[..|names| - 1]), names[|names| - 1])
  }

  function NoUses(given: seq<Name>): Uses {
    Uses([], {}, map[], given)
  }

  lemma NothingMet(given: seq<Name>)
    ensures External(NoUses(given), given)
  {
    assert given[|given|..] == [];
  }

  lemma {:induction false} WalkFinds(w: Targets, given: seq<Name>, names: seq<Name>, all: set<Name>)
    requires Elements(names) <= all
    ensures
      var u := VisitNames(w, NoUses(given), names);
      && Walked(w, u, {}) && External(u, given) && AllReached(w, u, all)
      && (NoRepeats(w, all) ==> TargetsOnce(w, u.prec))
      && (forall x :: x in names ==> Met(u, x))
  {
    hide Reaches, External, NoRepeats;
    if names == [] {
      NothingMet(given);
    } else {
      var rest, x := names[..|names| - 1], names[|names| - 1];
      assert names == rest + [x];
      var v := VisitNames(w, NoUses(given), rest);
      WalkFinds(w, given, rest, all);
      VisitWalks(w, v, {}, x);
      VisitExternal(w, v, given, x);
      ReachesItself(w, all, x);
      VisitReaches(w, v, all, x);
      if NoRepeats(w, all) {
        VisitDupFree(w, v, {}, all, x);
      }
    }
  }

  lemma {:induction false} TrailMet(w: Targets, u: Uses, names: set<Name>, p: seq<Name>, x: Name)
    requires Walked(w, u, {}) && (forall n :: n in names ==> Met(u, n)) && Trail(w, names, p, x)
    ensures Met(u, x)
    decreases |p|
  {
    if |p| > 1 {
      var q := p[..|p| - 1];
      var y := q[|q| - 1];
      assert Edge(UseGraph(w), p[|p| - 2], p[|p| - 2 + 1]);
      forall i | 0 <= i < |q| - 1
        ensures Edge(UseGraph(w), q[i], q[i + 1])
      {
        assert Edge(UseGraph(w), p[i], p[i + 1]);
      }
      assert Trail(w, names, q, y);
      TrailMet(w, u, names, q, y);
      assert Through(w, u, y);
    }
  }

  /** `use_rec` ends, on cyclic `use` lists as well, having met exactly what the names reach: the targets
      among them, each once, and the other names as external libraries. */
  lemma WalkIsReach(w: Targets, given: seq<Name>, names: seq<Name>)
    ensures
      var u := VisitNames(w, NoUses(given), names);
      && NoDup(u.seen)
      && (forall x :: x in u.seen <==> x in w.uses && Reaches(w, Elements(names), x))
      && (forall x :: x in u.notTargets <==> x !in w.uses && Reaches(w, Elements(names), x))
      && External(u, given)
  {
    var u := VisitNames(w, NoUses(given), names);
    WalkFinds(w, given, names, Elements(names));
    forall x | Reaches(w, Elements(names), x)
      ensures Met(u, x)
    {
      var p :| Trail(w, Elements(names), p, x);
      TrailMet(w, u, Elements(names), p, x);
    }
  }

  // --- sorting what was met

  datatype Linking = LinkOrder(out: seq<Name>) | UseCycle(left: Prec)

  ghost function Kept(u: Uses): Prec {
    u.prec - u.notTargets
  }

  ghost function Sorted(u: Uses): Drained {
    Drain(Kept(u), Freed(u.seen, Kept(u)))
  }

  /** Every target the names reach, and after every place of a user one of each target it uses. */
  ghost predicate UsersThenUsed(w: Targets, names: seq<Name>, out: seq<Name>) {
    && (forall x :: x in out <==> x in w.uses && Reaches(w, Elements(names), x))
    && (forall i, x :: 0 <= i < |out| && out[i] in w.uses && x in w.uses && x in Used(w, out[i]) ==> x in out[i + 1..])
  }

  /** Every target the names reach, once, and each before the targets it uses. */
  ghost predicate UsersFirst(w: Targets, names: seq<Name>, out: seq<Name>) {
    && NoDup(out)
    && (forall x :: x in out <==> x in w.uses && Reaches(w, Elements(names), x))
    && (forall i, j :: 0 <= i < |out| && 0 <= j < |out| && out[i] in w.uses && out[j] in Used(w, out[i]) ==> i < j)
  }

  /** Targets that use nothing, none given twice. */
  ghost predicate Loose(w: Targets, names: seq<Name>) {
    NoDup(names) && forall x :: x in names ==> x in w.uses && w.uses[x] == []
  }

  lemma {:induction false} LooseVisits(w: Targets, given: seq<Name>, names: seq<Name>)
    requires Loose(w, names)
    ensures VisitNames(w, NoUses(given), names) == Uses(names, {}, map[], given)
    decreases |names|
  {
    if names != [] {
      var init, x := names[..|names| - 1], names[|names| - 1];
      assert names == init + [x];
      LooseVisits(w, given, init);
      var u := Uses(init, {}, map[], given);
      assert x in names && x !in init;
      assert VisitAll(w, u.(seen := u.seen + [x]), x, []) == u.(seen := u.seen + [x]);
    }
  }

  lemma {:induction false} FreedAll(names: seq<Name>)
    ensures Freed(names, map[]) == names
    decreases |names|
  {
    if names != [] {
      FreedAll(names[..|names| - 1]);
      assert names == names[..|names| - 1] + [names[|names| - 1]];
    }
  }

  /** Targets that use nothing stay in the order in which they are given. */
  lemma LooseKeepOrder(w: Targets, given: seq<Name>, names: seq<Name>)
    requires Loose(w, names)
    ensures
      var d := Sorted(VisitNames(w, NoUses(given), names));
      d.left == map[] && Reversed(d.out) == names
  {
    LooseVisits(w, given, names);
    assert Kept(Uses(names, {}, map[], given)) == map[];
    FreedAll(names);
    DrainLoose(names);
    ReversedTwice(names);
  }

  class Target {
    var seen: seq<Name>
    var notTargets: set<Name>
    var prec: Prec
    var uselib: seq<Name>

    constructor (given: seq<Name>)
      ensures Walk() == NoUses(given)
    {
      seen, notTargets, prec, uselib := [], {}, map[], given;
    }

    ghost function Walk(): Uses
      reads this
    {
      Uses(seen, notTargets, prec, uselib)
    }

    method UseRec(w: Targets, name: Name)
      modifies this
      ensures Walk() == Visit(w, old(Walk()), name)
      decreases |w.uses.Keys - Elements(seen)|
    {
      if name in notTargets || name in seen {
        return;
      }
      if name !in w.uses {
        uselib := uselib + [name];
        notTargets := notTargets + {name};
        return;
      }
      Shrinks(w.uses.Keys, seen, name);
      seen := seen + [name];
      ghost var met := Walk();
      var names := w.uses[name];
      var i := 0;
      while i < |names|
        invariant 0 <= i <= |names| && met.seen <= seen
        invariant VisitAll(w, met, name, names) == VisitAll(w, Walk(), name, names[i..])
      {
        var x := names[i];
        assert names[i..][1..] == names[i + 1..];
        if x !in w.stlib {
          prec := prec[x := (if x in prec then prec[x] else []) + [name]];
          NoMoreLeft(w.uses.Keys, met.seen, seen);
          UseRec(w, x);
        }
        i := i + 1;
      }
    }

    /** `names` is the `use` list of the target itself. */
    method ProcessUse(w: Targets, names: seq<Name>) returns (r: Linking)
      modifies this
      ensures
        var u := VisitNames(w, NoUses(old(uselib)), names);
        && seen == u.seen && notTargets == u.notTargets && uselib == u.uselib && prec == Sorted(u).left
        && r == (if prec == map[] then LinkOrder(Reversed(Sorted(u).out)) else UseCycle(prec))
      ensures r.UseCycle? <==> Cyclic(UseGraph(w), Elements(seen))
      ensures r.LinkOrder? ==> UsersThenUsed(w, names, r.out)
      ensures r.LinkOrder? && NoRepeats(w, Elements(names)) ==> UsersFirst(w, names, r.out)
      ensures Loose(w, names) ==> r == LinkOrder(names)
    {
      ghost var given := uselib;
      seen, notTargets, prec := [], {}, map[];
      for i := 0 to |names|
        invariant Walk() == VisitNames(w, NoUses(given), names[..i])
      {
        assert names[..i + 1][..i] == names[..i];
        UseRec(w, names[i]);
      }
      assert names[..|names|] == names;
      LinkSorts(w, given, names);
      if Loose(w, names) {
        LooseKeepOrder(w, given, names);
      }
      ForgetNonTargets();
      var out, left := DrainAll(seen, prec);
      prec := left;
      if prec != map[] {
        return UseCycle(prec);
      }
      out := Reverse(out);
      return LinkOrder(out);
    }

    method ForgetNonTargets()
      modifies this`prec
      ensures prec == Kept(old(Walk()))
    {
      var todo := notTargets;
      while todo != {}
        invariant todo <= notTargets && prec == old(prec) - (notTargets - todo)
        decreases |todo|
      {
        var x :| x in todo;
        todo := todo - {x};
        if x in prec {
          prec := prec - {x};
        }
      }
    }
  }

  method DrainAll(seen: seq<Name>, prec: Prec) returns (out: seq<Name>, left: Prec)
    ensures Drained(out, left) == Drain(prec, Freed(seen, prec))
  {
    var tmp := [];
    left, out := prec, [];
    tmp := AppendFreed(tmp, seen, left);
    assert tmp == Freed(seen, prec);
    ghost var all := Drain(prec, tmp);
    assert [] + all.out == all.out;
    while tmp != []
      invariant all.out == out + Drain(left, tmp).out && all.left == Drain(left, tmp).left
      decreases |left|, |tmp|
    {
      hide Drain, Freed;
      var e := tmp[|tmp| - 1];
      DrainRound(left, tmp, out);
      tmp := tmp[..|tmp| - 1];
      if e in left {
        var nlst := left[e];
        left := left - {e};
        tmp := AppendFreed(tmp, nlst, left);
      }
      out := out + [e];
    }
    assert out + [] == out;
  }

  // --- what the order means

  /** The lists that are kept hold the `use` relation between the targets met, the other way round. */
  lemma KeptIs(w: Targets, u: Uses)
    requires Walked(w, u, {})
    ensures Kept(u).Keys <= Elements(u.seen)
    ensures forall x, y :: Recorded(Kept(u), x, y) <==> x in u.seen && y in u.seen && y in w.uses && x in Used(w, y)
  {
    forall x | x in Kept(u)
      ensures x in u.seen
    {
      var y := u.prec[x][0];
      assert Recorded(u.prec, x, y);
      assert TrueRecord(w, u, x, y) && Through(w, u, y);
    }
    forall x, y
      ensures Recorded(Kept(u), x, y) <==> x in u.seen && y in u.seen && y in w.uses && x in Used(w, y)
    {
      if Recorded(Kept(u), x, y) {
        assert Recorded(u.prec, x, y);
        assert TrueRecord(w, u, x, y);
      }
      if x in u.seen && y in u.seen && y in w.uses && x in Used(w, y) {
        assert Through(w, u, y);
        assert Recorded(u.prec, x, y);
      }
    }
  }

  lemma CycleHasEdges<T(!new)>(g: Graph<T>, s: set<T>)
    requires Cyclic(g, s)
    ensures Cyclic(g, s * g.Keys)
  {
    var w :| CycleIn(g, s, w);
    forall i | 0 <= i < |w|
      ensures w[i] in s * g.Keys
    {
      assert Edge(g, w[0], w[0 + 1]);
      assert i < |w| - 1 ==> Edge(g, w[i], w[i + 1]);
    }
    assert CycleIn(g, s * g.Keys, w);
  }

  lemma UseCycleEitherWay(w: Targets, u: Uses)
    requires Walked(w, u, {})
    ensures Cyclic(UseGraph(w), Elements(u.seen)) <==> Cyclic(GraphOf(Kept(u)), Kept(u).Keys)
  {
    var g, h, s := UseGraph(w), GraphOf(Kept(u)), Elements(u.seen);
    KeptIs(w, u);
    BothWays(w, u);
    hide Walked, Kept, Recorded, Cyclic, UseGraph, GraphOf, Edge;
    if Cyclic(g, s) {
      ReversedCycle(g, h, s);
      CycleHasEdges(h, s);
      GraphKeys(Kept(u));
      assert s * h.Keys == Kept(u).Keys;
    }
    if Cyclic(h, Kept(u).Keys) {
      CyclicGrows(h, Kept(u).Keys, h, s);
      ReversedCycle(h, g, s);
    }
  }

  lemma GraphKeys(prec: Prec)
    ensures GraphOf(prec).Keys == prec.Keys
  {
  }

  lemma BothWays(w: Targets, u: Uses)
    requires Walked(w, u, {})
    ensures forall x, y :: x in Elements(u.seen) && y in Elements(u.seen) && Edge(UseGraph(w), x, y) ==>
      Edge(GraphOf(Kept(u)), y, x)
    ensures forall x, y :: x in Elements(u.seen) && y in Elements(u.seen) && Edge(GraphOf(Kept(u)), x, y) ==>
      Edge(UseGraph(w), y, x)
  {
    KeptIs(w, u);
    forall x, y | x in Elements(u.seen) && y in Elements(u.seen) && Edge(UseGraph(w), x, y)
      ensures Edge(GraphOf(Kept(u)), y, x)
    {
      assert Recorded(Kept(u), y, x);
    }
    forall x, y | x in Elements(u.seen) && y in Elements(u.seen) && Edge(GraphOf(Kept(u)), x, y)
      ensures Edge(UseGraph(w), y, x)
    {
      assert Recorded(Kept(u), x, y);
    }
  }

  lemma ReversedIs(q: seq<Name>)
    ensures NoDup(q) ==> NoDup(Reversed(q))
    ensures forall x :: x in Reversed(q) <==> x in q
  {
    var r := Reversed(q);
    forall x | x in q
      ensures x in r
    {
      var k :| 0 <= k < |q| && q[k] == x;
      assert r[|q| - 1 - k] == x;
    }
  }

  lemma UserBefore(w: Targets, u: Uses, out: seq<Name>, i: nat, j: nat)
    requires Walked(w, u, {}) && NoDup(out) && (forall x :: x in out ==> x in u.seen)
    requires forall k :: 0 <= k < |out| ==> Preceded(Kept(u), out, k)
    requires i < |out| && j < |out| && out[i] in w.uses && out[j] in Used(w, out[i])
    ensures j < i
  {
    KeptIs(w, u);
    assert Recorded(Kept(u), out[j], out[i]);
    assert Preceded(Kept(u), out, i);
    var k :| 0 <= k < i && out[k] == out[j];
  }

  lemma SortedBackwards(w: Targets, u: Uses, out: seq<Name>)
    requires Walked(w, u, {}) && NoDup(out) && (forall x :: x in out ==> x in u.seen)
    requires forall k :: 0 <= k < |out| ==> Preceded(Kept(u), out, k)
    ensures
      var r := Reversed(out);
      forall i, j :: 0 <= i < |r| && 0 <= j < |r| && r[i] in w.uses && r[j] in Used(w, r[i]) ==> i < j
  {
    var r := Reversed(out);
    forall i, j | 0 <= i < |r| && 0 <= j < |r| && r[i] in w.uses && r[j] in Used(w, r[i])
      ensures i < j
    {
      UserBefore(w, u, out, |r| - 1 - i, |r| - 1 - j);
    }
  }

  lemma KeptDupFree(w: Targets, u: Uses)
    requires Walked(w, u, {}) && TargetsOnce(w, u.prec)
    ensures DupFree(Kept(u))
  {
    KeptIs(w, u);
  }

  lemma ListedSeen(w: Targets, u: Uses)
    requires Walked(w, u, {})
    ensures forall x :: Listed(Kept(u), x) ==> x in u.seen
  {
    KeptIs(w, u);
    forall x | Listed(Kept(u), x)
      ensures x in u.seen
    {
      var y :| y in Kept(u) && x in Kept(u)[y];
      assert Recorded(Kept(u), y, x);
    }
  }

  lemma SeenRoots(u: Uses)
    requires NoDup(u.seen)
    ensures Roots(Kept(u), Elements(u.seen), Freed(u.seen, Kept(u)))
  {
    FreedIs(u.seen, Kept(u));
  }

  lemma UsedLater(w: Targets, u: Uses, out: seq<Name>, i: nat, x: Name)
    requires Walked(w, u, {}) && (forall x :: x in out ==> x in u.seen)
    requires forall k :: 0 <= k < |out| ==> Preceded(Kept(u), out, k)
    requires i < |out| && Reversed(out)[i] in w.uses && x in w.uses && x in Used(w, Reversed(out)[i])
    ensures x in Reversed(out)[i + 1..]
  {
    var k, y := |out| - 1 - i, Reversed(out)[i];
    assert Through(w, u, y) && x in u.seen;
    KeptIs(w, u);
    assert Recorded(Kept(u), x, y);
    assert Preceded(Kept(u), out, k) && x in out[..k];
    var j :| 0 <= j < k && out[..k][j] == x;
    assert Reversed(out)[|out| - 1 - j] == x;
    assert Reversed(out)[i + 1..][|out| - 1 - j - (i + 1)] == x;
  }

  lemma AllUsedLater(w: Targets, u: Uses, out: seq<Name>)
    requires Walked(w, u, {}) && (forall x :: x in out ==> x in u.seen)
    requires forall k :: 0 <= k < |out| ==> Preceded(Kept(u), out, k)
    ensures var r := Reversed(out);
      forall i, x :: 0 <= i < |r| && r[i] in w.uses && x in w.uses && x in Used(w, r[i]) ==> x in r[i + 1..]
  {
    hide Walked, Used, Kept, Preceded;
    var r := Reversed(out);
    forall i, x | 0 <= i < |r| && r[i] in w.uses && x in w.uses && x in Used(w, r[i])
      ensures x in r[i + 1..]
    {
      UsedLater(w, u, out, i, x);
    }
  }

  /** What the worklist makes of the records. */
  lemma SortedIs(w: Targets, u: Uses)
    requires Walked(w, u, {})
    ensures Sorted(u).left == map[] <==> !Cyclic(GraphOf(Kept(u)), Kept(u).Keys)
    ensures Sorted(u).left == map[] ==>
      && (forall x :: x in Sorted(u).out <==> x in u.seen)
      && (forall k :: 0 <= k < |Sorted(u).out| ==> Preceded(Kept(u), Sorted(u).out, k))
    ensures TargetsOnce(w, u.prec) ==> NoDup(Sorted(u).out)
  {
    if TargetsOnce(w, u.prec) {
      KeptDupFree(w, u);
    }
    hide DupFree, TargetsOnce, Cyclic, Kept, Roots, Listed, GraphOf, Preceded;
    KeptIs(w, u);
    SeenRoots(u);
    ListedSeen(w, u);
    hide Walked, Recorded, Used;
    DrainSorts(Kept(u), Elements(u.seen), Freed(u.seen, Kept(u)));
  }

  lemma SortsUses(w: Targets, u: Uses)
    requires Walked(w, u, {})
    ensures Sorted(u).left == map[] <==> !Cyclic(UseGraph(w), Elements(u.seen))
    ensures
      var r := Reversed(Sorted(u).out);
      Sorted(u).left == map[] ==>
        && (forall x :: x in r <==> x in u.seen)
        && (forall i, x :: 0 <= i < |r| && r[i] in w.uses && x in w.uses && x in Used(w, r[i]) ==> x in r[i + 1..])
        && (TargetsOnce(w, u.prec) ==> NoDup(r))
  {
    hide *;
    SortedIs(w, u);
    UseCycleEitherWay(w, u);
    if Sorted(u).left == map[] {
      ReversedIs(Sorted(u).out);
      AllUsedLater(w, u, Sorted(u).out);
    }
  }

  /** Without repetitions the users are simply before what they use. */
  lemma OnceInOrder(w: Targets, names: seq<Name>, out: seq<Name>)
    requires UsersThenUsed(w, names, out) && NoDup(out)
    ensures UsersFirst(w, names, out)
  {
    hide Reaches, Used;
    forall i, j | 0 <= i < |out| && 0 <= j < |out| && out[i] in w.uses && out[j] in Used(w, out[i])
      ensures i < j
    {
      assert out[j] in out && out[j] in w.uses;
      assert out[j] in out[i + 1..];
      var k :| 0 <= k < |out| - (i + 1) && out[i + 1..][k] == out[j];
      assert out[i + 1 + k] == out[j];
    }
  }

  /** `process_use` either lists every target reached, with the targets each uses after it, or finds that some of
      them use each other in a circle, and it does so exactly when they do. When no `use` list repeats a target,
      every target is listed once. */
  lemma LinkSorts(w: Targets, given: seq<Name>, names: seq<Name>)
    ensures
      var u := VisitNames(w, NoUses(given), names);
      && (Sorted(u).left == map[] <==> !Cyclic(UseGraph(w), Elements(u.seen)))
      && (Sorted(u).left == map[] ==> UsersThenUsed(w, names, Reversed(Sorted(u).out)))
      && (Sorted(u).left == map[] && NoRepeats(w, Elements(names)) ==> UsersFirst(w, names, Reversed(Sorted(u).out)))
  {
    var u := VisitNames(w, NoUses(given), names);
    WalkFinds(w, given, names, Elements(names));
    WalkIsReach(w, given, names);
    hide *;
    SortsUses(w, u);
    if Sorted(u).left == map[] {
      SeenInOrder(w, names, u, Reversed(Sorted(u).out));
      if NoRepeats(w, Elements(names)) {
        OnceInOrder(w, names, Reversed(Sorted(u).out));
      }
    }
  }

  lemma SeenInOrder(w: Targets, names: seq<Name>, u: Uses, r: seq<Name>)
    requires forall x :: x in u.seen <==> x in w.uses && Reaches(w, Elements(names), x)
    requires forall x :: x in r <==> x in u.seen
    requires forall i, x :: 0 <= i < |r| && r[i] in w.uses && x in w.uses && x in Used(w, r[i]) ==> x in r[i + 1..]
    ensures UsersThenUsed(w, names, r)
  {
    hide Reaches, Used;
  }

  // --- how often a target is listed

  ghost function RecordTimes(prec: Prec, x: Name, y: Name): nat {
    if x in prec then Times(prec[x], y) else 0
  }

  /** How often the walk follows `x` from a list of names. */
  ghost function UseTimes(w: Targets, names: seq<Name>, x: Name): nat {
    if x in w.stlib then 0 else Times(names, x)
  }

  /** `y` has been recorded that often more. */
  ghost predicate MoreTimes(w: Targets, u: Uses, r: Uses, y: Name, names: seq<Name>) {
    forall x :: RecordTimes(r.prec, x, y) == RecordTimes(u.prec, x, y) + UseTimes(w, names, x)
  }

  ghost predicate SameTimes(u: Uses, r: Uses, y: Name) {
    forall x :: RecordTimes(r.prec, x, y) == RecordTimes(u.prec, x, y)
  }

  /** `y` is on record for `x` as often as its `use` list holds `x`. */
  ghost predicate Exact(w: Targets, u: Uses, y: Name)
    requires y in w.uses
  {
    forall x :: RecordTimes(u.prec, x, y) == UseTimes(w, w.uses[y], x)
  }

  ghost predicate Tallied(w: Targets, u: Uses, open: set<Name>) {
    forall y :: y in u.seen && y !in open ==> y in w.uses && Exact(w, u, y)
  }

  lemma RecordTimesIs(prec: Prec, x: Name, user: Name)
    ensures forall a, b ::
      RecordTimes(Record(prec, x, user), a, b) == RecordTimes(prec, a, b) + (if a == x && b == user then 1 else 0)
  {
    forall a, b
      ensures RecordTimes(Record(prec, x, user), a, b)
        == RecordTimes(prec, a, b) + (if a == x && b == user then 1 else 0)
    {
      TimesMore(if x in prec then prec[x] else [], [user], b);
    }
  }

  lemma SameExact(w: Targets, u: Uses, r: Uses, y: Name)
    requires y in w.uses && Exact(w, u, y) && SameTimes(u, r, y)
    ensures Exact(w, r, y)
  {
  }

  lemma {:induction false} VisitTallies(w: Targets, u: Uses, open: set<Name>, name: Name)
    requires Walked(w, u, open) && Tallied(w, u, open)
    ensures var r := Visit(w, u, name); Tallied(w, r, open) && forall y :: y in u.seen ==> SameTimes(u, r, y)
    decreases |w.uses.Keys - Elements(u.seen)|, 1, 0
  {
    hide Exact, SameTimes, MoreTimes, Tallied, Walked;
    if name in u.notTargets || name in u.seen {
      SamePrec(w, u, u, open);
    } else if name !in w.uses {
      var r := u.(uselib := u.uselib + [name], notTargets := u.notTargets + {name});
      SamePrec(w, u, r, open);
    } else {
      var met := u.(seen := u.seen + [name]);
      Shrinks(w.uses.Keys, u.seen, name);
      MeetWalks(w, u, open, name);
      SamePrec(w, u, met, open + {name});
      VisitAllTallies(w, met, open + {name}, name, w.uses[name]);
      NoTimesYet(w, u, open, name);
      NowExact(w, met, VisitAll(w, met, name, w.uses[name]), name);
      CloseTallies(w, u, VisitAll(w, met, name, w.uses[name]), open, name);
    }
  }

  /** All the uses of `name` are on record. */
  lemma CloseTallies(w: Targets, u: Uses, r: Uses, open: set<Name>, name: Name)
    requires name in w.uses && name !in u.seen && Tallied(w, r, open + {name}) && Exact(w, r, name)
    requires var met := u.(seen := u.seen + [name]); forall y :: y in met.seen && y != name ==> SameTimes(met, r, y)
    ensures Tallied(w, r, open) && forall y :: y in u.seen ==> SameTimes(u, r, y)
  {
    hide Exact, RecordTimes;
    var met := u.(seen := u.seen + [name]);
    forall y | y in u.seen
      ensures SameTimes(u, r, y)
    {
      assert SameTimes(met, r, y);
    }
  }

  lemma SamePrec(w: Targets, u: Uses, r: Uses, open: set<Name>)
    requires r.prec == u.prec && exists o :: o <= open && Tallied(w, u, o)
    requires forall y :: y in r.seen ==> y in u.seen || y in open
    ensures Tallied(w, r, open) && forall y :: y in u.seen ==> SameTimes(u, r, y)
  {
    hide UseTimes, RecordTimes;
    forall y | y in r.seen && y !in open
      ensures y in w.uses && Exact(w, r, y)
    {
      SameExact(w, u, r, y);
    }
  }

  lemma NoTimesYet(w: Targets, u: Uses, open: set<Name>, name: Name)
    requires name !in u.seen && Walked(w, u, open)
    ensures forall x :: RecordTimes(u.prec, x, name) == 0
  {
    forall x
      ensures RecordTimes(u.prec, x, name) == 0
    {
      assert !Recorded(u.prec, x, name);
    }
  }

  lemma NowExact(w: Targets, met: Uses, r: Uses, name: Name)
    requires name in w.uses && MoreTimes(w, met, r, name, w.uses[name])
    requires forall x :: RecordTimes(met.prec, x, name) == 0
    ensures Exact(w, r, name)
  {
  }

  lemma {:induction false} VisitAllTallies(w: Targets, u: Uses, open: set<Name>, user: Name, names: seq<Name>)
    requires Walked(w, u, open) && Tallied(w, u, open)
    requires user in open && user in w.uses && forall x :: x in names ==> x in w.uses[user]
    ensures
      var r := VisitAll(w, u, user, names);
      && Tallied(w, r, open) && MoreTimes(w, u, r, user, names)
      && forall y :: y in u.seen && y != user ==> SameTimes(u, r, y)
    decreases |w.uses.Keys - Elements(u.seen)|, 2, |names|
  {
    hide Exact, SameTimes, MoreTimes, Tallied, Walked;
    if names == [] {
      NoMoreTimes(w, u, user);
    } else {
      var x, rest := names[0], names[1..];
      assert names == [x] + rest;
      if x in w.stlib {
        VisitAllTallies(w, u, open, user, rest);
        PassTimes(w, u, VisitAll(w, u, user, rest), user, x, rest);
      } else {
        var noted := u.(prec := Record(u.prec, x, user));
        var v := Visit(w, noted, x);
        NoMoreLeft(w.uses.Keys, u.seen, v.seen);
        NoteWalks(w, u, open, user, x);
        NoteTallies(w, u, open, user, x);
        VisitWalks(w, noted, open, x);
        VisitTallies(w, noted, open, x);
        VisitAllTallies(w, v, open, user, rest);
        JoinTimes(w, u, noted, v, VisitAll(w, v, user, rest), user, x, rest);
      }
    }
  }

  lemma PassTimes(w: Targets, u: Uses, r: Uses, user: Name, x: Name, rest: seq<Name>)
    requires x in w.stlib && MoreTimes(w, u, r, user, rest)
    ensures MoreTimes(w, u, r, user, [x] + rest)
  {
    TimesFirst(w, x, rest);
    hide UseTimes, RecordTimes;
  }

  lemma JoinTimes(w: Targets, u: Uses, noted: Uses, v: Uses, r: Uses, user: Name, x: Name, rest: seq<Name>)
    requires x !in w.stlib && user in u.seen && noted.seen == u.seen <= v.seen
    requires forall y :: y != user ==> SameTimes(u, noted, y)
    requires forall z :: RecordTimes(noted.prec, z, user) == RecordTimes(u.prec, z, user) + (if z == x then 1 else 0)
    requires forall y :: y in u.seen ==> SameTimes(noted, v, y)
    requires MoreTimes(w, v, r, user, rest) && forall y :: y in v.seen && y != user ==> SameTimes(v, r, y)
    ensures MoreTimes(w, u, r, user, [x] + rest) && forall y :: y in u.seen && y != user ==> SameTimes(u, r, y)
  {
    TimesFirst(w, x, rest);
    hide UseTimes, RecordTimes;
    assert SameTimes(noted, v, user);
    forall y | y in u.seen && y != user
      ensures SameTimes(u, r, y)
    {
      assert SameTimes(u, noted, y) && SameTimes(noted, v, y) && SameTimes(v, r, y);
    }
  }

  lemma NoMoreTimes(w: Targets, u: Uses, user: Name)
    ensures MoreTimes(w, u, u, user, []) && forall y :: SameTimes(u, u, y)
  {
  }

  lemma TimesFirst(w: Targets, x: Name, rest: seq<Name>)
    ensures forall z :: UseTimes(w, [x] + rest, z) == UseTimes(w, rest, z) + (if z == x && x !in w.stlib then 1 else 0)
  {
    forall z
      ensures UseTimes(w, [x] + rest, z) == UseTimes(w, rest, z) + (if z == x && x !in w.stlib then 1 else 0)
    {
      TimesMore([x], rest, z);
    }
  }

  lemma NoteTallies(w: Targets, u: Uses, open: set<Name>, user: Name, x: Name)
    requires Tallied(w, u, open) && user in open
    ensures
      var r := u.(prec := Record(u.prec, x, user));
      && Tallied(w, r, open) && (forall y :: y != user ==> SameTimes(u, r, y))
      && forall z :: RecordTimes(r.prec, z, user) == RecordTimes(u.prec, z, user) + (if z == x then 1 else 0)
  {
    var r := u.(prec := Record(u.prec, x, user));
    RecordTimesIs(u.prec, x, user);
    hide RecordTimes, UseTimes;
    forall y | y in r.seen && y !in open
      ensures y in w.uses && Exact(w, r, y)
    {
      SameExact(w, u, r, y);
    }
  }

  lemma {:induction false} WalkTallies(w: Targets, given: seq<Name>, names: seq<Name>)
    ensures Tallied(w, VisitNames(w, NoUses(given), names), {})
  {
    if names != [] {
      var rest, x := names[..|names| - 1], names[|names| - 1];
      WalkTallies(w, given, rest);
      WalkFinds(w, given, rest, Elements(rest));
      VisitTallies(w, VisitNames(w, NoUses(given), rest), {}, x);
    }
  }

  /** Of the targets `x` uses, `e` is the one drained last, which is the first of them on the final list, if their
      last places are compared. */
  ghost predicate DrainedLast(w: Targets, out: seq<Name>, x: Name, e: Name)
    requires x in w.uses
  {
    && e in w.uses && e in Used(w, x) && e in out
    && forall y :: y in w.uses && y in Used(w, x) ==> y in out && FirstAt(out, y) <= FirstAt(out, e)
  }

  /** How often `process_use` lists a target: once when it uses no target, and otherwise as often as its `use` list
      holds the one of them that is drained last. */
  lemma ListedTimes(w: Targets, given: seq<Name>, names: seq<Name>, x: Name)
    requires var u := VisitNames(w, NoUses(given), names); Sorted(u).left == map[] && x in u.seen
    ensures x in w.uses
    ensures
      var out := Sorted(VisitNames(w, NoUses(given), names)).out;
      if exists e :: e in w.uses && e in Used(w, x)
      then exists e :: DrainedLast(w, out, x, e) && Times(Reversed(out), x) == Times(w.uses[x], e)
      else Times(Reversed(out), x) == 1
  {
    hide VisitNames, Reaches, External, NoRepeats, TargetsOnce, Walked, Tallied, DrainedLast, Drain, Freed, Used;
    var u := VisitNames(w, NoUses(given), names);
    WalkFinds(w, given, names, Elements(names));
    WalkTallies(w, given, names);
    UsesListed(w, u, x);
    WalkedOnce(w, u);
    SeenTimes(u, x);
    var out, kept := Sorted(u).out, Kept(u);
    ReversedTimes(out, x);
    DrainTimes(kept, Freed(u.seen, kept), x);
    hide Walked, Tallied, Listed, Used, Kept, DroppedLast, DrainedLast, Times;
    NothingListed(x);
    if Listed(kept, x) {
      var e :| e in kept && DroppedLast(kept, out, x, e)
               && Times(out, x) == Times(Freed(u.seen, kept), x) + Times(kept[e], x);
      DroppedDrained(w, u, out, x, e);
    }
  }

  lemma WalkedOnce(w: Targets, u: Uses)
    requires Walked(w, u, {})
    ensures NoDup(u.seen)
  {
  }

  lemma NothingListed(x: Name)
    ensures var none: Prec := map[]; !Listed(none, x)
  {
  }

  lemma UsesListed(w: Targets, u: Uses, x: Name)
    requires Walked(w, u, {}) && x in u.seen
    ensures x in w.uses && (Listed(Kept(u), x) <==> exists e :: e in w.uses && e in Used(w, x))
  {
    KeptIs(w, u);
    hide Kept;
    if Listed(Kept(u), x) {
      var e :| e in Kept(u) && x in Kept(u)[e];
      assert Recorded(Kept(u), e, x);
    }
    if e :| e in w.uses && e in Used(w, x) {
      assert Through(w, u, x) && Met(u, e);
      assert Recorded(Kept(u), e, x);
    }
  }

  lemma SeenTimes(u: Uses, x: Name)
    requires NoDup(u.seen) && x in u.seen
    ensures Times(Freed(u.seen, Kept(u)), x) == if Listed(Kept(u), x) then 0 else 1
  {
    hide Listed, Kept;
    FreedTimes(u.seen, Kept(u), x);
    OnceTimes(u.seen, x);
  }

  lemma {:induction false} OnceTimes(q: seq<Name>, x: Name)
    requires NoDup(q) && x in q
    ensures Times(q, x) == 1
  {
    var init, last := q[..|q| - 1], q[|q| - 1];
    assert q == init + [last];
    if x == last {
      assert x !in init by {
        forall k | 0 <= k < |init|
          ensures init[k] != x
        {
          assert q[k] == init[k];
        }
      }
    } else {
      OnceTimes(init, x);
    }
  }

  lemma {:induction false} ReversedTimes(q: seq<Name>, x: Name)
    ensures Times(Reversed(q), x) == Times(q, x)
    decreases |q|
  {
    if q == [] {
      assert Reversed(q) == q;
    } else {
      var init, last := q[..|q| - 1], q[|q| - 1];
      assert q == init + [last];
      assert Reversed(q) == [last] + Reversed(init);
      ReversedTimes(init, x);
      TimesMore(init, [last], x);
      TimesMore([last], Reversed(init), x);
    }
  }

  lemma DroppedDrained(w: Targets, u: Uses, out: seq<Name>, x: Name, e: Name)
    requires Walked(w, u, {}) && Tallied(w, u, {}) && x in u.seen && x in w.uses && DroppedLast(Kept(u), out, x, e)
    ensures DrainedLast(w, out, x, e) && e in Kept(u) && Times(Kept(u)[e], x) == Times(w.uses[x], e)
  {
    KeptIs(w, u);
    assert Kept(u)[e] == u.prec[e] && Recorded(Kept(u), e, x);
    assert Exact(w, u, x) && RecordTimes(u.prec, e, x) == UseTimes(w, w.uses[x], e);
    hide Kept;
    forall y | y in w.uses && y in Used(w, x)
      ensures y in out && FirstAt(out, y) <= FirstAt(out, e)
    {
      assert Through(w, u, x) && Met(u, y);
      assert Recorded(Kept(u), y, x);
    }
  }

  lemma RepeatedUseRecordsTwice(a: Name, b: Name)
    requires a != b
    ensures VisitNames(Targets(map[a := [b, b], b := []], {}), NoUses([]), [a])
      == Uses([a, b], {}, map[b := [a, a]], [])
  {
    var w := Targets(map[a := [b, b], b := []], {});
    var met := NoUses([]).(seen := [a]);
    var once := met.(prec := map[b := [a]]);
    var there := once.(seen := [a, b]);
    var twice := there.(prec := map[b := [a, a]]);
    assert [] + [a] == [a] && [a] + [a] == [a, a] && [b, b][1..] == [b] && [b][1..] == [] && [a][..0] == [];
    assert Record(met.prec, b, a) == once.prec && Record(there.prec, b, a) == twice.prec;
    assert Visit(w, once, b) == VisitAll(w, there, b, []) == there;
    assert VisitAll(w, there, a, [b]) == VisitAll(w, Visit(w, twice, b), a, []) == twice;
    assert VisitAll(w, met, a, [b, b]) == VisitAll(w, there, a, [b]);
    assert Visit(w, NoUses([]), a) == VisitAll(w, met, a, [b, b]);
    assert VisitNames(w, NoUses([]), []) == NoUses([]);
  }

  lemma TwiceListed(a: Name, b: Name, p: Prec, none: Prec)
    requires a != b && p == map[b := [a, a]] && none == map[]
    ensures b in p && p[b] == [a, a] && p - {b} == none && Listed(p, a) && !Listed(p, b) && !Listed(none, a)
  {
    assert b in p && a in p[b];
  }

  lemma TwiceFreed(a: Name, b: Name, p: Prec)
    requires Listed(p, a) && !Listed(p, b)
    ensures Freed([a, b], p) == [b]
  {
    hide Listed;
    FreedNone(p);
    FreedNext([], a, p);
    FreedNext([a], b, p);
    assert [] + [a] == [a] && [a] + [b] == [a, b] && [] + [b] == [b];
  }

  lemma BothFreed(a: Name, p: Prec)
    requires !Listed(p, a)
    ensures Freed([a, a], p) == [a, a]
  {
    hide Listed;
    FreedNone(p);
    FreedNext([], a, p);
    FreedNext([a], a, p);
    assert [] + [a] == [a] && [a] + [a] == [a, a];
  }

  lemma TwiceDrains(a: Name, b: Name, p: Prec)
    requires a != b && p == map[b := [a, a]]
    ensures Freed([a, b], p) == [b] && Drain(p, [b]).out == [b, a, a]
  {
    var none: Prec := map[];
    TwiceListed(a, b, p, none);
    TwiceFreed(a, b, p);
    BothFreed(a, none);
    hide *;
    BothDrained(a, none);
    DrainLast(p, [], b);
    assert [] + [b] == [b] && [] + [a, a] == [a, a] && [b] + [a, a] == [b, a, a];
  }

  lemma BothDrained(a: Name, p: Prec)
    requires a !in p
    ensures Drain(p, [a, a]).out == [a, a]
  {
    assert p - {a} == p;
    hide *;
    DrainNone(p);
    DrainLast(p, [], a);
    DrainLast(p, [a], a);
    assert [] + [a] == [a] && [a] + [a] == [a, a] && [a] + [] == [a];
  }

  lemma FreedNone(p: Prec)
    ensures Freed([], p) == []
  {
  }

  lemma FreedNext(q: seq<Name>, x: Name, p: Prec)
    ensures Freed(q + [x], p) == Freed(q, p) + (if Listed(p, x) then [] else [x])
  {
    assert (q + [x])[..|q + [x]| - 1] == q;
  }

  lemma DrainNone(p: Prec)
    ensures Drain(p, []) == Drained([], p)
  {
  }

  lemma DrainLast(p: Prec, q: seq<Name>, e: Name)
    ensures Drain(p, q + [e]).out == [e] + Drain(p - {e}, if e in p then q + Freed(p[e], p - {e}) else q).out
  {
    assert (q + [e])[..|q + [e]| - 1] == q;
    assert e !in p ==> p - {e} == p;
  }

  /** A name repeated in a `use` list can make its user come out twice. */
  lemma RepeatedUseListsTwice(a: Name, b: Name)
    requires a != b
    ensures
      var w := Targets(map[a := [b, b], b := []], {});
      Reversed(Sorted(VisitNames(w, NoUses([]), [a])).out) == [a, a, b]
  {
    hide VisitNames, Drain, Freed;
    RepeatedUseRecordsTwice(a, b);
    var p: Prec := map[b := [a, a]];
    assert Kept(Uses([a, b], {}, p, [])) == p;
    TwiceDrains(a, b, p);
  }

  lemma LeafVisit(w: Targets, u: Uses, x: Name)
    requires x in w.uses && w.uses[x] == [] && x !in u.notTargets
    ensures Visit(w, u, x) == if x in u.seen then u else u.(seen := u.seen + [x])
  {
  }

  /** Two leaf targets `b` and `c` used by `a`, `b` twice. */
  function UsesTwo(a: Name, b: Name, c: Name): Targets {
    Targets(map[a := [c, b, b], b := [], c := []], {})
  }

  /** The walk follows the first name of a list, to a leaf. */
  lemma LeafUse(w: Targets, u: Uses, v: Uses, user: Name, x: Name, rest: seq<Name>)
    requires x in w.uses && w.uses[x] == [] && x !in w.stlib && x !in u.notTargets
    requires v == u.(prec := Record(u.prec, x, user), seen := if x in u.seen then u.seen else u.seen + [x])
    ensures VisitAll(w, u, user, [x] + rest) == VisitAll(w, v, user, rest)
  {
    LeafVisit(w, u.(prec := Record(u.prec, x, user)), x);
    assert ([x] + rest)[1..] == rest;
    hide Visit, Record;
  }

  lemma RecordsTwo(p: Prec, q: Prec, a: Name, b: Name, c: Name)
    requires b != c && q == map[c := [a]] && p == map[c := [a], b := [a, a]]
    ensures Record(map[], c, a) == q && Record(Record(q, b, a), b, a) == p
  {
    assert [] + [a] == [a] && [a] + [a] == [a, a];
  }

  lemma TwoRecorded(w: Targets, u: Uses, a: Name, b: Name, c: Name)
    requires a != b && b != c && a != c && w == UsesTwo(a, b, c) && u == Uses([a], {}, map[], [])
    ensures VisitAll(w, u, a, [c, b, b]) == Uses([a, c, b], {}, map[c := [a], b := [a, a]], [])
  {
    var p: Prec, q: Prec := map[c := [a], b := [a, a]], map[c := [a]];
    RecordsTwo(p, q, a, b, c);
    assert w.uses[b] == [] && w.uses[c] == [] && w.stlib == {} && b in w.uses && c in w.uses;
    hide VisitAll, Record, UsesTwo;
    assert [c, b, b] == [c] + [b, b] && [b, b] == [b] + [b] && [b] == [b] + [];
    assert [a] + [c] == [a, c] && [a, c] + [b] == [a, c, b];
    LeafUse(w, u, Uses([a, c], {}, q, []), a, c, [b, b]);
    LeafUse(w, Uses([a, c], {}, q, []), Uses([a, c, b], {}, Record(q, b, a), []), a, b, [b]);
    LeafUse(w, Uses([a, c, b], {}, Record(q, b, a), []), Uses([a, c, b], {}, p, []), a, b, []);
    NoUse(w, Uses([a, c, b], {}, p, []), a);
  }

  lemma NoUse(w: Targets, u: Uses, user: Name)
    ensures VisitAll(w, u, user, []) == u
  {
  }

  lemma TwoFreed(a: Name, b: Name, c: Name, p: Prec)
    requires Listed(p, a) && !Listed(p, b) && !Listed(p, c)
    ensures Freed([a, c, b], p) == [c, b] && Freed([a, a], p) == []
  {
    hide Listed;
    FreedNone(p);
    FreedNext([], a, p);
    FreedNext([a], a, p);
    FreedNext([a], c, p);
    FreedNext([a, c], b, p);
    assert [] + [a] == [a] && [a] + [a] == [a, a] && [a] + [c] == [a, c] && [a, c] + [b] == [a, c, b];
    assert [] + [c] == [c] && [c] + [b] == [c, b] && [] + [] == [] + Freed([], p);
  }

  /** The only list left is dropped, and frees `a`. */
  lemma LastDrain(a: Name, c: Name, q: Prec, none: Prec)
    requires q - {c} == none && none - {a} == none && c in q && q[c] == [a] && !Listed(none, a) && a !in none
    ensures Drain(q, [c]).out == [c, a]
  {
    FreedNone(none);
    FreedNext([], a, none);
    hide *;
    assert [] + [a] == [a] && [] + [c] == [c] && [a] + [] == [a] && [c] + [a] == [c, a];
    DrainLast(q, [], c);
    DrainLast(none, [], a);
    DrainNone(none);
  }

  /** The list of `b` is dropped first: by the time `a` is free its two entries there are forgotten. */
  lemma TwoDrain(a: Name, b: Name, c: Name, p: Prec, q: Prec)
    requires p - {b} == q && b in p && p[b] == [a, a] && Freed([a, a], q) == [] && Drain(q, [c]).out == [c, a]
    ensures Drain(p, [c, b]).out == [b, c, a]
  {
    hide *;
    assert [c] + [b] == [c, b] && [c] + [] == [c] && [b] + [c, a] == [b, c, a];
    DrainLast(p, [c], b);
  }

  lemma TwoListed(a: Name, b: Name, c: Name, p: Prec, q: Prec, none: Prec)
    requires a != b && b != c && a != c && p == map[c := [a], b := [a, a]] && q == map[c := [a]] && none == map[]
    ensures p - {b} == q && q - {c} == none && none - {a} == none && b in p && p[b] == [a, a] && c in q && q[c] == [a]
    ensures Listed(p, a) && !Listed(p, b) && !Listed(p, c) && Listed(q, a) && !Listed(q, b) && !Listed(q, c)
    ensures !Listed(none, a)
  {
    assert c in p && a in p[c] && c in q && a in q[c];
  }

  lemma TwoVisited(a: Name, b: Name, c: Name)
    requires a != b && b != c && a != c
    ensures VisitNames(UsesTwo(a, b, c), NoUses([]), [a]) == Uses([a, c, b], {}, map[c := [a], b := [a, a]], [])
  {
    var w := UsesTwo(a, b, c);
    TwoRecorded(w, Uses([a], {}, map[], []), a, b, c);
    assert [] + [a] == [a] && [a][..0] == [];
    assert Visit(w, NoUses([]), a) == VisitAll(w, Uses([a], {}, map[], []), a, [c, b, b]);
    hide Visit, VisitAll;
    assert VisitNames(w, NoUses([]), []) == NoUses([]);
  }

  /** And need not: here the record that repeats `a` is not the last to be dropped, and every target comes once. */
  lemma RepeatedUseListsOnce(a: Name, b: Name, c: Name)
    requires a != b && b != c && a != c
    ensures Reversed(Sorted(VisitNames(UsesTwo(a, b, c), NoUses([]), [a])).out) == [a, c, b]
  {
    var p: Prec, q: Prec, none: Prec := map[c := [a], b := [a, a]], map[c := [a]], map[];
    TwoVisited(a, b, c);
    TwoListed(a, b, c, p, q, none);
    KeepsAll([a, c, b], p);
    hide VisitNames, Drain, Freed, Listed, Kept;
    TwoFreed(a, b, c, p);
    TwoFreed(a, b, c, q);
    LastDrain(a, c, q, none);
    TwoDrain(a, b, c, p, q);
  }

  lemma KeepsAll(seen: seq<Name>, p: Prec)
    ensures Kept(Uses(seen, {}, p, [])) == p
  {
    assert p - {} == p;
  }
}
