/** `ant_glob`: walking a directory while the include and exclude patterns are cut down name by name. */
module Glob {
  import opened Basics

  type Name = string
  type Re = string
  type Path = seq<Name>

  /** One part of a pattern: `**` or an expression for a single name. */
  datatype Elem = Deep | One(re: Re)

  type Pattern = seq<Elem>

  /** Whether an expression matches a name. */
  type Match = (Re, Name) -> bool

  /** The entries of a directory, sorted by name. */
  datatype Tree = File | Dir(kids: Kids)
  datatype Kids = NoKids | Kid(name: Name, tree: Tree, rest: Kids)

  /** What `src`, `dir` and `maxdepth` select. */
  datatype Options = Options(dir: bool, src: bool)

  /** The code raises an error on two `**` in a row. */
  ghost predicate Apart(lst: Pattern) {
    forall i :: 0 <= i < |lst| - 1 ==> !(lst[i].Deep? && lst[i + 1].Deep?)
  }

  ghost predicate AllApart(nn: seq<Pattern>) {
    forall i :: 0 <= i < |nn| ==> Apart(nn[i])
  }

  // --- what a pattern means

  ghost predicate Fits(m: Match, lst: Pattern, path: Path)
    decreases |path| + |lst|
  {
    if lst == [] then path == []
    else if lst[0].One? then path != [] && m(lst[0].re, path[0]) && Fits(m, lst[1..], path[1..])
    else if |lst| == 1 then path != []
    else Fits(m, lst[1..], path) || (path != [] && Fits(m, lst, path[1..]))
  }

  ghost predicate SomeFits(m: Match, nn: seq<Pattern>, path: Path) {
    exists i :: 0 <= i < |nn| && Fits(m, nn[i], path)
  }

  /** Some part of the path from its start on is excluded. */
  ghost predicate Barred(m: Match, nn: seq<Pattern>, path: Path) {
    exists k :: 0 < k <= |path| && SomeFits(m, nn, path[..k])
  }

  ghost predicate FitsAfter(m: Match, lst: Pattern, path: Path, k: int) {
    0 <= k <= |path| && Fits(m, lst, path[k..])
  }

  /** A `**` that is not the last part stands for any number of names, none included; the last one for at
      least one. */
  lemma {:induction false} DeepSkips(m: Match, lst: Pattern, path: Path)
    requires lst != [] && lst[0].Deep?
    ensures Fits(m, lst, path) <==> if |lst| == 1 then path != [] else exists k :: FitsAfter(m, lst[1..], path, k)
    decreases |path|
  {
    if |lst| > 1 {
      assert path[0..] == path;
      if Fits(m, lst[1..], path) {
        assert FitsAfter(m, lst[1..], path, 0);
      }
      if path != [] {
        DeepSkips(m, lst, path[1..]);
        forall k | 1 <= k <= |path|
          ensures FitsAfter(m, lst[1..], path[1..], k - 1) <==> FitsAfter(m, lst[1..], path, k)
        {
          assert path[1..][k - 1..] == path[k..];
        }
        if k :| FitsAfter(m, lst[1..], path[1..], k) {
          assert FitsAfter(m, lst[1..], path, k + 1);
        }
        if k :| FitsAfter(m, lst[1..], path, k) && k > 0 {
          assert FitsAfter(m, lst[1..], path[1..], k - 1);
        }
      } else if k :| FitsAfter(m, lst[1..], path, k) {
        assert path[k..] == path;
      }
    }
  }

  /** A pattern without `**` matches the paths that it matches name by name. */
  lemma {:induction false} PlainFits(m: Match, lst: Pattern, path: Path)
    requires forall i :: 0 <= i < |lst| ==> lst[i].One?
    ensures Fits(m, lst, path) <==> |path| == |lst| && forall i :: 0 <= i < |lst| ==> m(lst[i].re, path[i])
    decreases |lst|
  {
    if lst != [] && path != [] {
      PlainFits(m, lst[1..], path[1..]);
      assert forall i :: 0 < i < |lst| ==> lst[i] == lst[1..][i - 1];
      assert forall i :: 0 < i < |path| ==> path[i] == path[1..][i - 1];
    }
  }

  // --- one name off the front

  /** What is left of a pattern after a name. */
  function Residues(m: Match, lst: Pattern, name: Name): seq<Pattern>
    requires Apart(lst)
  {
    if lst == [] then []
    else if lst[0].Deep? then
      [lst] + (if |lst| == 1 then [[]] else if m(lst[1].re, name) then [lst[2..]] else [])
    else if m(lst[0].re, name) then [lst[1..]]
    else []
  }

  function Filtered(m: Match, nn: seq<Pattern>, name: Name): seq<Pattern>
    requires AllApart(nn)
  {
    if nn == [] then [] else Filtered(m, nn[..|nn| - 1], name) + Residues(m, nn[|nn| - 1], name)
  }

  method Filtre(m: Match, name: Name, nn: seq<Pattern>) returns (ret: seq<Pattern>)
    requires AllApart(nn)
    ensures ret == Filtered(m, nn, name)
  {
    ret := [];
    for i := 0 to |nn|
      invariant AllApart(nn[..i]) && ret == Filtered(m, nn[..i], name)
    {
      var lst := nn[i];
      assert nn[..i + 1][..i] == nn[..i];
      if lst == [] {
      } else if lst[0].Deep? {
        ret := ret + [lst];
        if |lst| > 1 {
          assert Apart(lst) && lst[1].One?;
          if m(lst[1].re, name) {
            ret := ret + [lst[2..]];
          }
        } else {
          ret := ret + [[]];
        }
      } else if m(lst[0].re, name) {
        ret := ret + [lst[1..]];
      }
    }
    assert nn[..|nn|] == nn;
  }

  /** The include and exclude patterns left after a name; nothing is left of the former once it is excluded. */
  datatype Pats = Pats(acc: seq<Pattern>, rej: seq<Pattern>)

  function Accept(m: Match, name: Name, pats: Pats): Pats
    requires AllApart(pats.acc) && AllApart(pats.rej)
  {
    var nrej := Filtered(m, pats.rej, name);
    Pats(if [] in nrej then [] else Filtered(m, pats.acc, name), nrej)
  }

  lemma TailApart(lst: Pattern, k: nat)
    requires Apart(lst) && k <= |lst|
    ensures Apart(lst[k..])
  {
  }

  lemma {:induction false} FilteredApart(m: Match, nn: seq<Pattern>, name: Name)
    requires AllApart(nn)
    ensures AllApart(Filtered(m, nn, name))
  {
    if nn != [] {
      FilteredApart(m, nn[..|nn| - 1], name);
      ResiduesApart(m, nn[|nn| - 1], name);
    }
  }

  lemma ResiduesApart(m: Match, lst: Pattern, name: Name)
    requires Apart(lst)
    ensures AllApart(Residues(m, lst, name))
  {
    if lst != [] {
      TailApart(lst, 1);
      if |lst| > 1 {
        TailApart(lst, 2);
      }
    }
  }

  lemma FitsNothing(m: Match, lst: Pattern)
    requires Apart(lst)
    ensures Fits(m, lst, []) <==> lst == []
  {
    if lst != [] && lst[0].Deep? && |lst| > 1 {
      assert lst[1].One?;
    }
  }

  /** A pattern matches a path exactly when something left of it after the first name matches the rest. */
  lemma ResiduesFit(m: Match, lst: Pattern, name: Name, path: Path)
    requires Apart(lst)
    ensures Fits(m, lst, [name] + path) <==> SomeFits(m, Residues(m, lst, name), path)
  {
    var whole, left := [name] + path, Residues(m, lst, name);
    assert whole[1..] == path;
    if lst != [] {
      if lst[0].Deep? && |lst| > 1 {
        assert lst[1].One? && lst[1..][0] == lst[1] && lst[1..][1..] == lst[2..];
        if m(lst[1].re, name) {
          OneOfTwo(m, lst, lst[2..], path);
        } else {
          assert left == [lst];
          OneOfOne(m, lst, path);
        }
      } else if lst[0].Deep? {
        OneOfTwo(m, lst, [], path);
      } else if m(lst[0].re, name) {
        OneOfOne(m, lst[1..], path);
      }
    }
  }

  lemma OneOfOne(m: Match, a: Pattern, path: Path)
    ensures SomeFits(m, [a], path) <==> Fits(m, a, path)
  {
    assert [a][0] == a;
  }

  lemma OneOfTwo(m: Match, a: Pattern, b: Pattern, path: Path)
    ensures SomeFits(m, [a] + [b], path) <==> Fits(m, a, path) || Fits(m, b, path)
  {
    SomeOfBoth(m, [a], [b], path);
    OneOfOne(m, a, path);
    OneOfOne(m, b, path);
  }

  lemma SomeOfBoth(m: Match, a: seq<Pattern>, b: seq<Pattern>, path: Path)
    ensures SomeFits(m, a + b, path) <==> SomeFits(m, a, path) || SomeFits(m, b, path)
  {
    if i :| 0 <= i < |a| && Fits(m, a[i], path) {
      assert (a + b)[i] == a[i];
    }
    if i :| 0 <= i < |b| && Fits(m, b[i], path) {
      assert (a + b)[|a| + i] == b[i];
    }
  }

  lemma {:induction false} FilteredFit(m: Match, nn: seq<Pattern>, name: Name, path: Path)
    requires AllApart(nn)
    ensures SomeFits(m, nn, [name] + path) <==> SomeFits(m, Filtered(m, nn, name), path)
  {
    if nn != [] {
      var init, last := nn[..|nn| - 1], nn[|nn| - 1];
      assert nn == init + [last];
      FilteredFit(m, init, name, path);
      ResiduesFit(m, last, name, path);
      SomeOfBoth(m, init, [last], [name] + path);
      OneOfOne(m, last, [name] + path);
      SomeOfBoth(m, Filtered(m, init, name), Residues(m, last, name), path);
    }
  }

  lemma EmptyLeft(m: Match, nn: seq<Pattern>)
    requires AllApart(nn)
    ensures [] in nn <==> SomeFits(m, nn, [])
  {
    forall i | 0 <= i < |nn|
      ensures Fits(m, nn[i], []) <==> nn[i] == []
    {
      FitsNothing(m, nn[i]);
    }
  }

  // --- the walk

  predicate Wanted(o: Options, tree: Tree) {
    if tree.Dir? then o.dir else o.src
  }

  /** What `ant_iter` yields below `base`, in order. */
  function Walk(m: Match, o: Options, base: Path, kids: Kids, pats: Pats, maxdepth: int): seq<Path>
    requires AllApart(pats.acc) && AllApart(pats.rej)
    decreases kids
  {
    if kids.NoKids? then []
    else
      FilteredApart(m, pats.acc, kids.name);
      FilteredApart(m, pats.rej, kids.name);
      var npats := Accept(m, kids.name, pats);
      var node := base + [kids.name];
      (if [] in npats.acc && Wanted(o, kids.tree) then [node] else [])
      + (if npats.acc != [] && kids.tree.Dir? && maxdepth != 0
         then Walk(m, o, node, kids.tree.kids, npats, maxdepth - 1) else [])
      + Walk(m, o, base, kids.rest, pats, maxdepth)
  }

  method AntIter(m: Match, o: Options, base: Path, kids: Kids, pats: Pats, maxdepth: int) returns (ret: seq<Path>)
    requires AllApart(pats.acc) && AllApart(pats.rej)
    ensures ret == Walk(m, o, base, kids, pats, maxdepth)
    decreases kids, 1
  {
    hide Walk, Filtered, AllApart;
    ret := [];
    var dircont := kids;
    ghost var all := Walk(m, o, base, kids, pats, maxdepth);
    assert [] + all == all;
    while dircont.Kid?
      invariant dircont == kids || dircont < kids
      invariant all == ret + Walk(m, o, base, dircont, pats, maxdepth)
      decreases dircont
    {
      WalkOn(m, o, base, dircont, pats, maxdepth, ret);
      ret := AntEntry(m, o, base, dircont, pats, maxdepth, ret);
      dircont := dircont.rest;
    }
    WalkNone(m, o, base, pats, maxdepth, ret);
  }

  lemma WalkNone(m: Match, o: Options, base: Path, pats: Pats, maxdepth: int, ret: seq<Path>)
    requires AllApart(pats.acc) && AllApart(pats.rej)
    ensures ret + Walk(m, o, base, NoKids, pats, maxdepth) == ret
  {
  }

  /** The first of `kids`, added to what was yielded before. */
  method AntEntry(m: Match, o: Options, base: Path, kids: Kids, pats: Pats, maxdepth: int, was: seq<Path>)
    returns (ret: seq<Path>)
    requires AllApart(pats.acc) && AllApart(pats.rej) && kids.Kid?
    requires AllApart(Accept(m, kids.name, pats).acc) && AllApart(Accept(m, kids.name, pats).rej)
    ensures
      var npats := Accept(m, kids.name, pats);
      var node := base + [kids.name];
      var r := if [] in npats.acc && Wanted(o, kids.tree) then was + [node] else was;
      ret == if npats.acc != [] && kids.tree.Dir? && maxdepth != 0
             then r + Walk(m, o, node, kids.tree.kids, npats, maxdepth - 1) else r
    decreases kids, 0
  {
    hide Walk, Filtered;
    ret := was;
    var name, tree := kids.name, kids.tree;
    var nacc := Filtre(m, name, pats.acc);
    var nrej := Filtre(m, name, pats.rej);
    if [] in nrej {
      nacc := [];
    }
    if nacc != [] {
      var node := base + [name];
      if [] in nacc {
        if tree.Dir? {
          if o.dir {
            ret := ret + [node];
          }
        } else {
          if o.src {
            ret := ret + [node];
          }
        }
      }
      if tree.Dir? && maxdepth != 0 {
        var inner := AntIter(m, o, node, tree.kids, Pats(nacc, nrej), maxdepth - 1);
        ret := ret + inner;
      }
    }
  }

  /** One entry of the directory: itself, what is below it, the others. */
  lemma WalkOn(m: Match, o: Options, base: Path, kids: Kids, pats: Pats, maxdepth: int, ret: seq<Path>)
    requires AllApart(pats.acc) && AllApart(pats.rej) && kids.Kid?
    ensures
      var npats := Accept(m, kids.name, pats);
      var node := base + [kids.name];
      && AllApart(npats.acc) && AllApart(npats.rej)
      && (var r := if [] in npats.acc && Wanted(o, kids.tree) then ret + [node] else ret;
          ret + Walk(m, o, base, kids, pats, maxdepth) ==
            (if npats.acc != [] && kids.tree.Dir? && maxdepth != 0
             then r + Walk(m, o, node, kids.tree.kids, npats, maxdepth - 1) else r)
            + Walk(m, o, base, kids.rest, pats, maxdepth))
  {
    FilteredApart(m, pats.acc, kids.name);
    FilteredApart(m, pats.rej, kids.name);
    var npats, node := Accept(m, kids.name, pats), base + [kids.name];
    var own := if [] in npats.acc && Wanted(o, kids.tree) then [node] else [];
    var below := if npats.acc != [] && kids.tree.Dir? && maxdepth != 0
                 then Walk(m, o, node, kids.tree.kids, npats, maxdepth - 1) else [];
    var more := Walk(m, o, base, kids.rest, pats, maxdepth);
    assert Walk(m, o, base, kids, pats, maxdepth) == own + below + more;
    hide Walk, Filtered;
    Regroup(ret, own, below, more);
    assert ret + [] == ret && ret + own + [] == ret + own;
  }

  lemma Regroup<T>(a: seq<T>, b: seq<T>, c: seq<T>, d: seq<T>)
    ensures a + (b + c + d) == a + b + c + d
  {
  }

  function At(kids: Kids, path: Path): Option<Tree>
    requires path != []
    decreases kids
  {
    if kids.NoKids? then None
    else if kids.name != path[0] then At(kids.rest, path)
    else if |path| == 1 then Some(kids.tree)
    else if kids.tree.Dir? then At(kids.tree.kids, path[1..])
    else None
  }

  ghost predicate Has(kids: Kids, name: Name) {
    kids.Kid? && (kids.name == name || Has(kids.rest, name))
  }

  ghost predicate Distinct(kids: Kids) {
    kids.Kid? ==> !Has(kids.rest, kids.name) && Distinct(kids.rest) && (kids.tree.Dir? ==> Distinct(kids.tree.kids))
  }

  /** What the walk is for: a wanted entry, not too deep, that some include pattern matches, and no exclude
      pattern matches it or a directory on the way to it. */
  ghost predicate Selected(m: Match, o: Options, kids: Kids, pats: Pats, maxdepth: int, path: Path) {
    && path != [] && At(kids, path).Some?
    && (match At(kids, path).value case Dir(_) => o.dir case File => o.src)
    && (maxdepth >= 0 ==> |path| <= maxdepth + 1)
    && SomeFits(m, pats.acc, path) && !Barred(m, pats.rej, path)
  }

  lemma BarredAfter(m: Match, nn: seq<Pattern>, name: Name, path: Path)
    requires AllApart(nn)
    ensures Barred(m, nn, [name] + path) <==> [] in Filtered(m, nn, name) || Barred(m, Filtered(m, nn, name), path)
  {
    var whole, left := [name] + path, Filtered(m, nn, name);
    FilteredApart(m, nn, name);
    EmptyLeft(m, left);
    forall k | 0 <= k <= |path|
      ensures SomeFits(m, nn, whole[..k + 1]) <==> SomeFits(m, left, path[..k])
    {
      assert whole[..k + 1] == [name] + path[..k];
      FilteredFit(m, nn, name, path[..k]);
    }
    assert path[..0] == [];
    if [] in left {
      assert SomeFits(m, nn, whole[..0 + 1]);
    }
    if k :| 0 < k <= |path| && SomeFits(m, left, path[..k]) {
      assert SomeFits(m, nn, whole[..k + 1]);
    }
    if k :| 0 < k <= |whole| && SomeFits(m, nn, whole[..k]) {
      assert whole[..k] == whole[..(k - 1) + 1];
      assert SomeFits(m, left, path[..k - 1]);
    }
  }

  lemma {:induction false} AbsentNowhere(kids: Kids, path: Path)
    requires path != [] && !Has(kids, path[0])
    ensures At(kids, path).None?
  {
    if kids.Kid? {
      AbsentNowhere(kids.rest, path);
    }
  }

  /** An entry that begins with the first name here is selected just when what is left of the patterns says so. */
  lemma SelectedHere(m: Match, o: Options, kids: Kids, pats: Pats, maxdepth: int, path: Path)
    requires AllApart(pats.acc) && AllApart(pats.rej) && kids.Kid? && path != [] && path[0] == kids.name
    ensures
      var npats := Accept(m, kids.name, pats);
      Selected(m, o, kids, pats, maxdepth, path) <==>
        if |path| == 1 then [] in npats.acc && Wanted(o, kids.tree)
        else npats.acc != [] && kids.tree.Dir? && maxdepth != 0
             && Selected(m, o, kids.tree.kids, npats, maxdepth - 1, path[1..])
  {
    var name, rest := kids.name, path[1..];
    assert path == [name] + rest;
    FilteredApart(m, pats.acc, name);
    FilteredFit(m, pats.acc, name, rest);
    BarredAfter(m, pats.rej, name, rest);
    EmptyLeft(m, Filtered(m, pats.acc, name));
    var nrej := Filtered(m, pats.rej, name);
    if |path| == 1 {
      assert rest == [] && !Barred(m, nrej, rest);
    }
    assert !SomeFits(m, [], rest);
  }

  lemma SelectedThere(m: Match, o: Options, kids: Kids, pats: Pats, maxdepth: int, path: Path)
    requires kids.Kid? && path != [] && path[0] != kids.name
    ensures Selected(m, o, kids, pats, maxdepth, path) <==> Selected(m, o, kids.rest, pats, maxdepth, path)
  {
  }

  /** What is yielded is the entry itself, or below it, or comes with the others. */
  lemma YieldedBy(m: Match, o: Options, base: Path, kids: Kids, pats: Pats, maxdepth: int, p: Path)
    requires AllApart(pats.acc) && AllApart(pats.rej) && kids.Kid?
    ensures
      var npats := Accept(m, kids.name, pats);
      var node := base + [kids.name];
      && AllApart(npats.acc) && AllApart(npats.rej)
      && (p in Walk(m, o, base, kids, pats, maxdepth) <==>
            || ([] in npats.acc && Wanted(o, kids.tree) && p == node)
            || (npats.acc != [] && kids.tree.Dir? && maxdepth != 0
                && p in Walk(m, o, node, kids.tree.kids, npats, maxdepth - 1))
            || p in Walk(m, o, base, kids.rest, pats, maxdepth))
  {
    FilteredApart(m, pats.acc, kids.name);
    FilteredApart(m, pats.rej, kids.name);
  }

  lemma SelectedBelow(base: Path, name: Name, p: Path)
    requires base <= p && |p| > |base|
    ensures p[|base|..] != [] && p[|base|..][0] == p[|base|]
    ensures p[|base|] == name <==> base + [name] <= p
    ensures p[|base|] == name ==>
      p[|base + [name]|..] == p[|base|..][1..] && (|p[|base|..]| == 1 <==> p == base + [name])
  {
  }

  lemma NotAtTheBase(m: Match, o: Options, kids: Kids, pats: Pats, maxdepth: int)
    ensures !Selected(m, o, kids, pats, maxdepth, [])
  {
  }

  lemma SelectedOneName(m: Match, o: Options, kids: Kids, pats: Pats, maxdepth: int, path: Path)
    requires kids.Kid? && !Has(kids.rest, kids.name) && path != [] && path[0] == kids.name
    ensures !Selected(m, o, kids.rest, pats, maxdepth, path)
  {
    AbsentNowhere(kids.rest, path);
  }

  /** The walk yields exactly the entries selected, so cutting it short where nothing is left of the
      include patterns loses none. */
  lemma {:induction false} WalkSelects(m: Match, o: Options, base: Path, kids: Kids, pats: Pats, maxdepth: int, p: Path)
    requires AllApart(pats.acc) && AllApart(pats.rej) && Distinct(kids)
    ensures p in Walk(m, o, base, kids, pats, maxdepth) <==>
      base <= p && Selected(m, o, kids, pats, maxdepth, p[|base|..])
    decreases kids
  {
    if kids.Kid? {
      hide Walk, Selected, Accept, AllApart;
      var npats, node := Accept(m, kids.name, pats), base + [kids.name];
      YieldedBy(m, o, base, kids, pats, maxdepth, p);
      WalkSelects(m, o, base, kids.rest, pats, maxdepth, p);
      if kids.tree.Dir? {
        WalkSelects(m, o, node, kids.tree.kids, npats, maxdepth - 1, p);
      }
      if base <= p && |p| > |base| {
        var path := p[|base|..];
        SelectedBelow(base, kids.name, p);
        if path[0] == kids.name {
          SelectedHere(m, o, kids, pats, maxdepth, path);
          SelectedOneName(m, o, kids, pats, maxdepth, path);
          if |path| == 1 && kids.tree.Dir? {
            NotAtTheBase(m, o, kids.tree.kids, npats, maxdepth - 1);
          }
        } else {
          SelectedThere(m, o, kids, pats, maxdepth, path);
        }
      } else {
        NotAtTheBase(m, o, kids, pats, maxdepth);
        NotAtTheBase(m, o, kids.rest, pats, maxdepth);
      }
    }
  }

  /** All the walk yields goes through one of the names here. */
  lemma WalkBelow(m: Match, o: Options, base: Path, kids: Kids, pats: Pats, maxdepth: int)
    requires AllApart(pats.acc) && AllApart(pats.rej) && Distinct(kids)
    ensures forall p :: p in Walk(m, o, base, kids, pats, maxdepth) ==>
      base <= p && |p| > |base| && Has(kids, p[|base|])
  {
    forall p | p in Walk(m, o, base, kids, pats, maxdepth)
      ensures base <= p && |p| > |base| && Has(kids, p[|base|])
    {
      WalkSelects(m, o, base, kids, pats, maxdepth, p);
      if !Has(kids, p[|base|..][0]) {
        AbsentNowhere(kids, p[|base|..]);
      }
    }
  }

  lemma JoinOnce<T>(a: seq<T>, b: seq<T>)
    requires NoDup(a) && NoDup(b) && forall x :: x in a ==> x !in b
    ensures NoDup(a + b)
  {
    forall i, j | 0 <= i < j < |a + b|
      ensures (a + b)[i] != (a + b)[j]
    {
      if i < |a| && j >= |a| {
        assert a[i] in a && b[j - |a|] in b;
      }
    }
  }

  /** Nothing is yielded twice. */
  lemma {:induction false} WalkOnce(m: Match, o: Options, base: Path, kids: Kids, pats: Pats, maxdepth: int)
    requires AllApart(pats.acc) && AllApart(pats.rej) && Distinct(kids)
    ensures NoDup(Walk(m, o, base, kids, pats, maxdepth))
    decreases kids
  {
    if kids.Kid? {
      var npats, node := Accept(m, kids.name, pats), base + [kids.name];
      FilteredApart(m, pats.acc, kids.name);
      FilteredApart(m, pats.rej, kids.name);
      var own := if [] in npats.acc && Wanted(o, kids.tree) then [node] else [];
      var below := if npats.acc != [] && kids.tree.Dir? && maxdepth != 0
                   then Walk(m, o, node, kids.tree.kids, npats, maxdepth - 1) else [];
      if kids.tree.Dir? {
        WalkOnce(m, o, node, kids.tree.kids, npats, maxdepth - 1);
        WalkBelow(m, o, node, kids.tree.kids, npats, maxdepth - 1);
      }
      WalkOnce(m, o, base, kids.rest, pats, maxdepth);
      WalkBelow(m, o, base, kids.rest, pats, maxdepth);
      JoinOnce(own, below);
      forall p | p in own + below
        ensures p !in Walk(m, o, base, kids.rest, pats, maxdepth)
      {
        assert node <= p && p[|base|] == kids.name;
      }
      JoinOnce(own + below, Walk(m, o, base, kids.rest, pats, maxdepth));
    }
  }

  /** `ant_glob` on the directory with the entries `kids`. */
  method AntGlob(m: Match, o: Options, kids: Kids, incl: seq<Pattern>, excl: seq<Pattern>, maxdepth: int)
    returns (ret: seq<Path>)
    requires AllApart(incl) && AllApart(excl) && Distinct(kids)
    ensures NoDup(ret)
    ensures forall p :: p in ret <==>
      && p != [] && At(kids, p).Some? && (if At(kids, p).value.Dir? then o.dir else o.src)
      && (maxdepth < 0 || |p| <= maxdepth + 1) && SomeFits(m, incl, p) && !Barred(m, excl, p)
  {
    ret := AntIter(m, o, [], kids, Pats(incl, excl), maxdepth);
    WalkOnce(m, o, [], kids, Pats(incl, excl), maxdepth);
    forall p
      ensures p in ret <==> Selected(m, o, kids, Pats(incl, excl), maxdepth, p)
    {
      WalkSelects(m, o, [], kids, Pats(incl, excl), maxdepth, p);
      assert p[0..] == p;
    }
    hide At, SomeFits, Barred, Walk;
  }
}
