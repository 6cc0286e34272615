/** The tree of nodes: making, finding and relating paths. */
module NodeTree {
  import opened Basics

  // --- paths as text

  predicate NoSlash(s: string) {
    '/' !in s
  }

  /** What a node below the root can be called. */
  predicate ProperName(s: string) {
    s != "" && s != "." && s != ".." && NoSlash(s)
  }

  function Join(q: seq<string>): string {
    if q == [] then "" else if |q| == 1 then q[0] else q[0] + "/" + Join(q[1..])
  }

  /** `path.split('/')`, with `word` the part read so far. */
  function SplitFrom(word: string, s: string): seq<string>
    decreases |s|
  {
    if s == "" then [word]
    else if s[0] == '/' then [word] + SplitFrom("", s[1..])
    else SplitFrom(word + [s[0]], s[1..])
  }

  predicate Counts(x: string) {
    x != "" && x != "."
  }

  function Keep(q: seq<string>): seq<string> {
    if q == [] then [] else (if Counts(q[0]) then [q[0]] else []) + Keep(q[1..])
  }

  /** The parts of a path that mean something. */
  function Parts(path: string): seq<string> {
    Keep(SplitFrom("", path))
  }

  lemma {:induction false} SplitWord(word: string, w: string, rest: string)
    requires NoSlash(w)
    ensures SplitFrom(word, w + rest) == SplitFrom(word + w, rest)
    decreases |w|
  {
    if w == "" {
      assert w + rest == rest && word + w == word;
    } else {
      assert (w + rest)[1..] == w[1..] + rest;
      SplitWord(word + [w[0]], w[1..], rest);
      assert word + [w[0]] + w[1..] == word + w;
    }
  }

  /** Joining parts that hold no slash and splitting again gives the parts back. */
  lemma {:induction false} SplitJoin(q: seq<string>)
    requires q != [] && forall i :: 0 <= i < |q| ==> NoSlash(q[i])
    ensures SplitFrom("", Join(q)) == q
    decreases |q|
  {
    assert "" + q[0] == q[0] && q[0] + "" == q[0];
    if |q| == 1 {
      SplitWord("", q[0], "");
    } else {
      var rest := Join(q[1..]);
      SplitJoin(q[1..]);
      hide NoSlash;
      JoinCons(q);
      SplitWord("", q[0], "/" + rest);
      SplitSlash(q[0], rest);
      assert [q[0]] + q[1..] == q;
    }
  }

  lemma JoinCons(q: seq<string>)
    requires |q| > 1
    ensures Join(q) == q[0] + ("/" + Join(q[1..]))
  {
  }

  lemma SplitSlash(word: string, rest: string)
    ensures SplitFrom(word, "/" + rest) == [word] + SplitFrom("", rest)
  {
    assert ("/" + rest)[1..] == rest;
  }

  lemma {:induction false} KeepAll(q: seq<string>)
    requires forall i :: 0 <= i < |q| ==> Counts(q[i])
    ensures Keep(q) == q
  {
    if q != [] {
      KeepAll(q[1..]);
    }
  }

  /** Splitting undoes joining the other way round too: what a text is split into joins to the text. */
  lemma {:induction false} SplitRejoins(word: string, s: string)
    requires NoSlash(word)
    ensures Join(SplitFrom(word, s)) == word + s
    ensures SplitFrom(word, s) != [] && forall i :: 0 <= i < |SplitFrom(word, s)| ==> NoSlash(SplitFrom(word, s)[i])
    decreases |s|
  {
    if s != "" {
      assert s == [s[0]] + s[1..];
      if s[0] == '/' {
        var q := SplitFrom("", s[1..]);
        SplitRejoins("", s[1..]);
        assert ([word] + q)[1..] == q;
        JoinCons([word] + q);
      } else {
        SplitRejoins(word + [s[0]], s[1..]);
      }
    }
  }

  lemma {:induction false} KeepBoth(a: seq<string>, b: seq<string>)
    ensures Keep(a + b) == Keep(a) + Keep(b)
  {
    if a == [] {
      assert a + b == b;
    } else {
      assert (a + b)[1..] == a[1..] + b;
      KeepBoth(a[1..], b);
    }
  }

  /** The parts of a path are the pieces between its slashes, in order, without those that are empty or a dot. */
  lemma PartsAre(path: string, words: seq<string>, i: nat)
    requires words != [] && Join(words) == path && (forall k :: 0 <= k < |words| ==> NoSlash(words[k])) && i < |words|
    ensures Parts(path) ==
      Keep(words[..i]) + (if words[i] == "" || words[i] == "." then [] else [words[i]]) + Keep(words[i + 1..])
    ensures Keep([]) == []
  {
    SplitJoin(words);
    KeepOne(words[i]);
    hide *;
    var a, b, x := words[..i], words[i + 1..], [words[i]];
    AroundOne(words, i);
    KeepBoth(a + x, b);
    KeepBoth(a, x);
    PartsKeep(path);
  }

  lemma AroundOne<T>(q: seq<T>, i: nat)
    requires i < |q|
    ensures q == q[..i] + [q[i]] + q[i + 1..]
  {
  }

  lemma PartsKeep(path: string)
    ensures Parts(path) == Keep(SplitFrom("", path))
  {
  }

  lemma KeepOne(x: string)
    ensures Keep([x]) == if x == "" || x == "." then [] else [x]
    ensures Keep([]) == []
  {
    assert [x][1..] == [];
  }

  // --- nodes

  class Node {
    const name: string
    const parent: Node?
    /** The nodes from the root down to the parent. */
    ghost const above: seq<Node>
    var children: map<string, Node>

    constructor Root()
      ensures name == "" && parent == null && above == [] && children == map[]
    {
      name, parent, above, children := "", null, [], map[];
    }

    constructor Below(x: string, p: Node)
      requires x !in p.children
      modifies p`children
      ensures name == x && parent == p && above == p.above + [p] && children == map[]
      ensures p.children == old(p.children)[x := this]
    {
      name, parent, above, children := x, p, p.above + [p], map[];
      new;
      p.children := p.children[x := this];
    }

    /** From the root down to here. */
    ghost function Line(): (r: seq<Node>)
      ensures |r| == |above| + 1 && r[|above|] == this
    {
      above + [this]
    }
  }

  ghost predicate Placed(t: set<Node>, n: Node)
    requires n in t
    reads t
  {
    if n.parent == null then n.above == []
    else
      && n.parent in t && n.above == n.parent.above + [n.parent]
      && n.name != ".." && n.name in n.parent.children && n.parent.children[n.name] == n
  }

  ghost predicate Holds(t: set<Node>, n: Node)
    reads n
  {
    forall k :: k in n.children ==> n.children[k] in t && n.children[k].parent == n && n.children[k].name == k
  }

  /** The nodes of one tree. */
  ghost predicate Tree(t: set<Node>)
    reads t
  {
    && (forall n :: n in t ==> Placed(t, n))
    && (forall n :: n in t ==> Holds(t, n))
    && (forall a, b :: a in t && b in t && a.parent == null && b.parent == null ==> a == b)
  }

  /** Every node below the root has a name that can be part of a path. */
  ghost predicate Named(t: set<Node>) {
    forall n :: n in t && n.parent != null ==> ProperName(n.name)
  }

  lemma {:induction false} OnLine(t: set<Node>, n: Node, i: nat)
    requires Tree(t) && n in t && i <= |n.above|
    ensures n.Line()[i] in t && n.Line()[i].above == n.above[..i]
    ensures i == 0 <==> n.Line()[i].parent == null
    ensures i > 0 ==> n.Line()[i].parent == n.Line()[i - 1]
    decreases |n.above| - i
  {
    assert Placed(t, n);
    if i < |n.above| {
      OnLine(t, n.parent, i);
      assert n.Line()[i] == n.parent.Line()[i];
      assert n.above[..i] == n.parent.above[..i];
      assert i > 0 ==> n.Line()[i - 1] == n.parent.Line()[i - 1];
    }
  }

  // --- how nodes are found

  /** Where the parts of a path lead; `..` at the root stays there. */
  ghost function Descend(t: set<Node>, cur: Node, parts: seq<string>): (r: Node?)
    requires Tree(t) && cur in t
    reads t
    ensures r == null || r in t
    decreases |parts|
  {
    if parts == [] then cur
    else if parts[0] == ".." then
      assert Placed(t, cur);
      Descend(t, if cur.parent == null then cur else cur.parent, parts[1..])
    else if parts[0] in cur.children then
      assert Holds(t, cur);
      Descend(t, cur.children[parts[0]], parts[1..])
    else null
  }

  /** The index on both lines of the last node they share. */
  ghost function MeetFrom(a: seq<Node>, b: seq<Node>, k: nat): (r: nat)
    requires k < |a| && k < |b|
    ensures r <= k && (r > 0 ==> a[r] == b[r])
    ensures forall i :: r < i <= k ==> a[i] != b[i]
  {
    if k == 0 || a[k] == b[k] then k else MeetFrom(a, b, k - 1)
  }

  ghost function Meet(n: Node, base: Node): (r: nat)
    ensures r <= |n.above| && r <= |base.above|
  {
    MeetFrom(n.Line(), base.Line(), if |n.above| < |base.above| then |n.above| else |base.above|)
  }

  ghost function Names(line: seq<Node>): (r: seq<string>)
    ensures |r| == |line| && forall i :: 0 <= i < |r| ==> r[i] == line[i].name
  {
    seq(|line|, i requires 0 <= i < |line| => line[i].name)
  }

  function Ups(k: nat): (r: seq<string>)
    ensures |r| == k && forall i :: 0 <= i < k ==> r[i] == ".."
  {
    if k == 0 then [] else [".."] + Ups(k - 1)
  }

  /** The parts `path_from` puts together: up to where the lines meet and down again, or all the way from the
      root when that is where they meet. */
  ghost function Route(n: Node, base: Node): seq<string> {
    var k := Meet(n, base);
    var down := Names(n.Line()[k + 1..]);
    if k > 0 then Ups(|base.above| - k) + down
    else if down == [] then [] else [""] + down
  }

  ghost function PathText(n: Node, base: Node): string {
    var j := Join(Route(n, base));
    if j == "" then "." else j
  }

  lemma StepUp(t: set<Node>, n: Node, k: nat, parts: seq<string>)
    requires Tree(t) && n in t && k > 0 && n.parent != null
    ensures n.parent in t && Descend(t, n, Ups(k) + parts) == Descend(t, n.parent, Ups(k - 1) + parts)
  {
    assert Placed(t, n);
    var all := Ups(k) + parts;
    assert all[0] == ".." && all[1..] == Ups(k - 1) + parts;
  }

  /** One step up the line of `n`. */
  lemma LineUp(t: set<Node>, n: Node, k: nat)
    requires Tree(t) && n in t && 0 < k <= |n.above|
    ensures n.Line()[k] in t && n.Line()[k - 1] in t && n.Line()[k].parent == n.Line()[k - 1]
    ensures n.Line()[k].parent != null
  {
    OnLine(t, n, k);
    OnLine(t, n, k - 1);
  }

  lemma {:induction false} GoUp(t: set<Node>, n: Node, i: nat, j: nat, parts: seq<string>)
    requires Tree(t) && n in t && i <= j <= |n.above| && n.Line()[j] in t && n.Line()[i] in t
    ensures Descend(t, n.Line()[j], Ups(j - i) + parts) == Descend(t, n.Line()[i], parts)
    decreases j
  {
    hide Tree, Descend, Node.Line;
    if i == j {
      assert Ups(0) + parts == parts;
    } else {
      LineUp(t, n, j);
      StepUp(t, n.Line()[j], j - i, parts);
      GoUp(t, n, i, j - 1, parts);
    }
  }

  lemma NamesHead(line: seq<Node>, i: nat)
    requires i < |line|
    ensures Names(line[i..]) == [line[i].name] + Names(line[i + 1..])
  {
  }

  lemma StepDown(t: set<Node>, n: Node, i: nat, parts: seq<string>)
    requires Tree(t) && n in t && i < |n.above| && n.Line()[i] in t && n.Line()[i + 1] in t
    ensures Descend(t, n.Line()[i], [n.Line()[i + 1].name] + parts) == Descend(t, n.Line()[i + 1], parts)
  {
    var a, b := n.Line()[i], n.Line()[i + 1];
    OnLine(t, n, i + 1);
    hide Node.Line;
    assert Placed(t, b) && b.parent == a;
    var all := [b.name] + parts;
    assert all[0] == b.name && all[1..] == parts;
  }

  lemma {:induction false} GoDown(t: set<Node>, n: Node, i: nat)
    requires Tree(t) && n in t && i <= |n.above|
    ensures n.Line()[i] in t && Descend(t, n.Line()[i], Names(n.Line()[i + 1..])) == n
    decreases |n.above| - i
  {
    OnLine(t, n, i);
    hide Tree, Descend, Node.Line, Names;
    if i < |n.above| {
      OnLine(t, n, i + 1);
      GoDown(t, n, i + 1);
      NamesHead(n.Line(), i + 1);
      StepDown(t, n, i, Names(n.Line()[i + 2..]));
    } else {
      NamesNone(n.Line());
      DescendNowhere(t, n, []);
    }
  }

  lemma NamesNone(line: seq<Node>)
    ensures Names(line[|line|..]) == []
  {
  }

  lemma {:induction false} DownDeeper(t: set<Node>, cur: Node, parts: seq<string>)
    requires Tree(t) && cur in t && forall i :: 0 <= i < |parts| ==> parts[i] != ".."
    ensures Descend(t, cur, parts) != null ==> |Descend(t, cur, parts).above| == |cur.above| + |parts|
    decreases |parts|
  {
    if parts != [] && parts[0] in cur.children {
      assert Holds(t, cur);
      var next := cur.children[parts[0]];
      assert Placed(t, next);
      DownDeeper(t, next, parts[1..]);
    }
  }

  lemma JoinSome(q: seq<string>)
    requires q != [] && (q[0] != "" || |q| > 1)
    ensures Join(q) != ""
  {
  }

  ghost predicate AllProper(q: seq<string>) {
    forall i :: 0 <= i < |q| ==> ProperName(q[i])
  }

  lemma NamesProper(t: set<Node>, n: Node, k: nat)
    requires Tree(t) && Named(t) && n in t && k <= |n.above|
    ensures AllProper(Names(n.Line()[k + 1..]))
  {
    var line := n.Line()[k + 1..];
    forall i | 0 <= i < |line|
      ensures ProperName(line[i].name)
    {
      OnLine(t, n, k + 1 + i);
      assert line[i] == n.Line()[k + 1 + i];
      assert Placed(t, line[i]);
    }
  }

  lemma DotParts()
    ensures Parts(".") == []
  {
    SplitWord("", ".", "");
    assert "" + "." == "." && "." + "" == ".";
    assert SplitFrom(".", "") == ["."];
    assert !Counts(".") && ["."][1..] == [];
  }

  lemma UpsAndDown(k: nat, down: seq<string>)
    requires AllProper(down) && (k > 0 || down != [])
    ensures Join(Ups(k) + down) != "" && Parts(Join(Ups(k) + down)) == Ups(k) + down
  {
    var q := Ups(k) + down;
    JoinSome(q);
    SplitJoin(q);
    KeepAll(q);
  }

  lemma FromTheRoot(down: seq<string>)
    requires AllProper(down) && down != []
    ensures Join([""] + down) != "" && Parts(Join([""] + down)) == down
  {
    var q := [""] + down;
    JoinSome(q);
    SplitJoin(q);
    assert q[1..] == down;
    KeepAll(down);
  }

  /** What the text of a route splits into. */
  lemma RouteParts(t: set<Node>, n: Node, base: Node)
    requires Tree(t) && Named(t) && n in t && base in t
    ensures
      var k := Meet(n, base);
      var down := Names(n.Line()[k + 1..]);
      Parts(PathText(n, base)) == if k > 0 then Ups(|base.above| - k) + down else down
  {
    var k := Meet(n, base);
    var down := Names(n.Line()[k + 1..]);
    NamesProper(t, n, k);
    RouteText(n, base);
    hide *;
    DotParts();
    JoinNone();
    if k > 0 {
      if |base.above| > k || down != [] {
        UpsAndDown(|base.above| - k, down);
      } else {
        NoUps(down);
      }
    } else if down != [] {
      FromTheRoot(down);
    }
  }

  lemma RouteText(n: Node, base: Node)
    ensures
      var k := Meet(n, base);
      var down := Names(n.Line()[k + 1..]);
      var q := if k > 0 then Ups(|base.above| - k) + down else if down == [] then [] else [""] + down;
      PathText(n, base) == if Join(q) == "" then "." else Join(q)
  {
    hide Join, Ups, Names, Meet;
  }

  lemma NoUps(down: seq<string>)
    requires down == []
    ensures Ups(0) + down == []
  {
  }

  lemma JoinNone()
    ensures Join([]) == ""
  {
  }

  lemma RootsMeet(t: set<Node>, n: Node, base: Node)
    requires Tree(t) && n in t && base in t
    ensures n.Line()[0] == base.Line()[0] && n.Line()[0] in t
    ensures n.Line()[Meet(n, base)] == base.Line()[Meet(n, base)]
  {
    OnLine(t, n, 0);
    OnLine(t, base, 0);
  }

  /** The part of the line of `n` below index `k`, by names. */
  ghost function Down(n: Node, k: nat): seq<string>
    requires k <= |n.above|
  {
    Names(n.Line()[k + 1..])
  }

  lemma ResolvesUp(t: set<Node>, n: Node, base: Node, k: nat)
    requires Tree(t) && n in t && base in t && k <= |n.above| && k <= |base.above| && n.Line()[k] == base.Line()[k]
    ensures Descend(t, base, Ups(|base.above| - k) + Down(n, k)) == n
  {
    hide Tree, Descend, Ups, Names, Node.Line;
    GoDown(t, n, k);
    OnLine(t, base, |base.above|);
    OnLine(t, base, k);
    GoUp(t, base, k, |base.above|, Down(n, k));
  }

  lemma ResolvesDown(t: set<Node>, n: Node, base: Node)
    requires Tree(t) && n in t && base in t && base.parent == null && n.Line()[0] == base.Line()[0]
    ensures Descend(t, base, Down(n, 0)) == n
  {
    GoDown(t, n, 0);
    assert Placed(t, base);
    hide Tree, Descend, Names;
    assert base.Line()[0] == base;
  }

  lemma ResolvesElsewhere(t: set<Node>, n: Node, base: Node)
    requires Tree(t) && Named(t) && n in t && base in t && base.parent != null
    ensures Descend(t, base, Down(n, 0)) != n
  {
    NamesProper(t, n, 0);
    DownDeeper(t, base, Down(n, 0));
    assert Placed(t, base);
    hide Tree, Descend;
    assert |Down(n, 0)| == |n.above|;
  }

  /** A relative path leads back from its base exactly when the two nodes have something other than the root
      in common, or the base is the root. */
  lemma ResolvesBack(t: set<Node>, n: Node, base: Node)
    requires Tree(t) && Named(t) && n in t && base in t
    ensures Descend(t, base, Parts(PathText(n, base))) == n <==> Meet(n, base) > 0 || base.parent == null
  {
    hide Tree, Descend, Names, Node.Line, PathText, Parts, Placed;
    RouteParts(t, n, base);
    RootsMeet(t, n, base);
    if Meet(n, base) > 0 {
      ResolvesUp(t, n, base, Meet(n, base));
    } else if base.parent == null {
      ResolvesDown(t, n, base);
    } else {
      ResolvesElsewhere(t, n, base);
    }
  }

  /** The two lines run together down to where they meet and share nothing below. */
  lemma MeetIsLast(t: set<Node>, n: Node, base: Node, i: nat)
    requires Tree(t) && n in t && base in t && i <= |n.above| && i <= |base.above|
    ensures n.Line()[i] == base.Line()[i] <==> i <= Meet(n, base)
  {
    var k := Meet(n, base);
    RootsMeet(t, n, base);
    if i <= k {
      OnLine(t, n, k);
      OnLine(t, base, k);
      assert n.above[..k] == base.above[..k];
      assert i < k ==> n.above[i] == n.above[..k][i] && base.above[i] == base.above[..k][i];
    }
  }

  // --- the operations

  method Height(ghost t: set<Node>, n: Node) returns (val: int)
    requires Tree(t) && n in t
    ensures val == |n.above|
  {
    var d: Node? := n;
    val := -1;
    while d != null
      invariant d != null ==> d in t && val == |n.above| - |d.above| - 1
      invariant d == null ==> val == |n.above|
      decreases if d == null then 0 else |d.above| + 1
    {
      assert Placed(t, d);
      d := d.parent;
      val := val + 1;
    }
  }

  lemma LineEnd(t: set<Node>, n: Node)
    requires Tree(t) && n in t
    ensures n.Line()[|n.above|] == n
    ensures forall i :: 0 <= i < |n.Line()| ==> |n.Line()[i].above| == i
  {
    forall i | 0 <= i < |n.Line()|
      ensures |n.Line()[i].above| == i
    {
      OnLine(t, n, i);
    }
  }

  /** Whether `n` lies below `node` or is `node`. */
  method IsChildOf(ghost t: set<Node>, n: Node, node: Node) returns (r: bool)
    requires Tree(t) && n in t && node in t
    ensures r <==> node in n.Line()
  {
    hide Tree, Placed, Holds, Node.Line;
    var p := n;
    var h1 := Height(t, n);
    var h2 := Height(t, node);
    var diff := h1 - h2;
    ghost var k := |n.above|;
    LineEnd(t, n);
    while diff > 0
      invariant 0 <= k <= |n.above| && p == n.Line()[k] && diff == k - |node.above|
      invariant diff < 0 ==> k == |n.above|
      decreases diff
    {
      LineUp(t, n, k);
      p := p.parent;
      diff := diff - 1;
      k := k - 1;
    }
    r := p == node;
    assert r ==> node in n.Line();
  }

  method SearchNode(ghost t: set<Node>, start: Node, path: string) returns (r: Node?)
    requires Tree(t) && start in t
    ensures r == Descend(t, start, Parts(path))
  {
    hide Parts, Tree, Descend, Placed, Holds;
    var lst := Parts(path);
    var cur := start;
    var i := 0;
    assert lst[0..] == lst;
    while i < |lst|
      invariant 0 <= i <= |lst| && cur in t
      invariant Descend(t, start, lst) == Descend(t, cur, lst[i..])
    {
      DescendOnce(t, cur, lst[i..]);
      assert lst[i..][1..] == lst[i + 1..];
      if lst[i] == ".." {
        cur := if cur.parent == null then cur else cur.parent;
      } else if lst[i] in cur.children {
        cur := cur.children[lst[i]];
      } else {
        return null;
      }
      i := i + 1;
    }
    DescendNowhere(t, cur, lst[i..]);
    return cur;
  }

  lemma DescendOnce(t: set<Node>, cur: Node, parts: seq<string>)
    requires Tree(t) && cur in t && parts != []
    ensures cur.parent != null ==> cur.parent in t
    ensures parts[0] in cur.children ==> cur.children[parts[0]] in t
    ensures Descend(t, cur, parts) ==
      if parts[0] == ".." then Descend(t, if cur.parent == null then cur else cur.parent, parts[1..])
      else if parts[0] in cur.children then Descend(t, cur.children[parts[0]], parts[1..])
      else null
  {
    assert Placed(t, cur) && Holds(t, cur);
  }

  lemma DescendNowhere(t: set<Node>, cur: Node, parts: seq<string>)
    requires Tree(t) && cur in t && parts == []
    ensures Descend(t, cur, parts) == cur
  {
  }

  ghost function Backwards<T>(q: seq<T>): (r: seq<T>)
    ensures |r| == |q| && forall i :: 0 <= i < |q| ==> r[i] == q[|q| - 1 - i]
  {
    seq(|q|, i requires 0 <= i < |q| => q[|q| - 1 - i])
  }

  /** The names below index `k` of a line, from the bottom up. */
  ghost function Climbed(line: seq<Node>, k: nat): seq<string>
    requires k < |line|
  {
    Backwards(Names(line[k + 1..]))
  }

  lemma ClimbOne(line: seq<Node>, k: nat)
    requires 0 < k < |line|
    ensures Climbed(line, k) + [line[k].name] == Climbed(line, k - 1)
  {
    var a := Names(line[k + 1..]);
    assert Names(line[k..]) == [line[k].name] + a;
    BackwardsCons(line[k].name, a);
  }

  lemma ClimbNone(line: seq<Node>)
    requires line != []
    ensures Climbed(line, |line| - 1) == []
  {
  }

  lemma BackwardsCons<T>(x: T, q: seq<T>)
    ensures Backwards([x] + q) == Backwards(q) + [x]
  {
  }

  method PathFrom(ghost t: set<Node>, n: Node, node: Node) returns (r: string)
    requires Tree(t) && n in t && node in t
    ensures r == PathText(n, node)
  {
    hide Tree, Placed, Holds, Node.Line, Route, Climbed, Join, Backwards, Ups, Names;
    var c1h := Height(t, n);
    var c2h := Height(t, node);
    var c1, lst := Gather(t, n, c1h, c2h);
    var c2, up := Rise(t, node, c2h, if c1h > c2h then c2h else c1h);
    var climbed, rest;
    c1, climbed, rest := MeetUp(t, n, node, c1, c2, if c1h > c2h then c2h else c1h);
    OnLine(t, n, Meet(n, node));
    RouteBackwards(n, node);
    r := Written(lst + climbed, up + rest, c1.parent == null);
  }

  /** Up from `n` to the height `to`, unless it is higher already, noting the names. */
  method Gather(ghost t: set<Node>, n: Node, h: int, to: int) returns (c1: Node, lst: seq<string>)
    requires Tree(t) && n in t && h == |n.above| && to >= 0
    ensures
      var k := if h > to then to else h;
      c1 == n.Line()[k] && lst == Climbed(n.Line(), k)
  {
    hide Tree, Placed, Holds, Node.Line, Climbed;
    var c1h := h;
    c1, lst := n, [];
    LineEnd(t, n);
    ClimbNone(n.Line());
    while c1h > to
      invariant 0 <= c1h <= |n.above| && (c1h >= to || c1h == |n.above|)
      invariant c1 == n.Line()[c1h] && lst == Climbed(n.Line(), c1h)
    {
      LineUp(t, n, c1h);
      ClimbOne(n.Line(), c1h);
      lst := lst + [c1.name];
      c1 := c1.parent;
      c1h := c1h - 1;
    }
  }

  method Rise(ghost t: set<Node>, node: Node, h: int, to: int) returns (c2: Node, up: nat)
    requires Tree(t) && node in t && h == |node.above| && 0 <= to <= h
    ensures c2 == node.Line()[to] && up == h - to
  {
    hide Tree, Placed, Holds, Node.Line;
    var c2h := h;
    c2, up := node, 0;
    LineEnd(t, node);
    while c2h > to
      invariant to <= c2h <= |node.above| && c2 == node.Line()[c2h] && up == h - c2h
    {
      LineUp(t, node, c2h);
      up := up + 1;
      c2 := c2.parent;
      c2h := c2h - 1;
    }
  }

  /** The text of names gathered from the bottom up, below a node that is the root or is `up` above the base. */
  method Written(climbed: seq<string>, up: nat, root: bool) returns (r: string)
    ensures
      var q := Backwards(if !root then climbed + Ups(up) else if climbed == [] then [] else climbed + [""]);
      r == if Join(q) == "" then "." else Join(q)
  {
    var lst := climbed;
    if !root {
      for i := 0 to up
        invariant lst == climbed + Ups(i)
      {
        UpsMore(i);
        assert climbed + (Ups(i) + [".."]) == lst + [".."];
        lst := lst + [".."];
      }
    } else if lst != [] {
      lst := lst + [""];
    }
    lst := Reverse(lst);
    var joined := Join(lst);
    return if joined == "" then "." else joined;
  }

  lemma {:induction false} UpsMore(i: nat)
    ensures Ups(i) + [".."] == Ups(i + 1)
  {
  }

  lemma RouteBackwards(n: Node, base: Node)
    ensures
      var k := Meet(n, base);
      var lst := Climbed(n.Line(), k);
      Route(n, base) == Backwards(if k > 0 then lst + Ups(|base.above| - k) else if lst == [] then [] else lst + [""])
  {
    var k := Meet(n, base);
    var down := Names(n.Line()[k + 1..]);
    hide Meet, Names, Backwards, Ups;
    BackAgain(down, [""]);
    if k > 0 {
      BackAgain(down, Ups(|base.above| - k));
      UpsBackwards(|base.above| - k);
    }
  }

  lemma BackAgain(a: seq<string>, b: seq<string>)
    ensures Backwards(Backwards(a) + b) == Backwards(b) + a
    ensures Backwards([""]) == [""] && (Backwards(a) == [] <==> a == [])
    ensures a == [] ==> Backwards(Backwards(a)) == []
  {
  }

  lemma UpsBackwards(k: nat)
    ensures Backwards(Ups(k)) == Ups(k)
  {
  }

  /** The two cursors go up together until they meet. */
  method MeetUp(ghost t: set<Node>, n: Node, node: Node, from1: Node, from2: Node, h: nat)
    returns (c1: Node, lst: seq<string>, up: nat)
    requires Tree(t) && n in t && node in t && h <= |n.above| && h <= |node.above|
    requires from1 == n.Line()[h] && from2 == node.Line()[h] && (h == |n.above| || h == |node.above|)
    ensures c1 == n.Line()[Meet(n, node)]
    ensures Meet(n, node) + up == h && Climbed(n.Line(), h) + lst == Climbed(n.Line(), Meet(n, node))
  {
    hide Tree, Placed, Holds, Node.Line, Climbed;
    var c2 := from2;
    c1, lst, up := from1, [], 0;
    ghost var k := h;
    RootsMeet(t, n, node);
    assert Climbed(n.Line(), h) + [] == Climbed(n.Line(), h);
    while c1 != c2
      invariant 0 <= k <= h && k + up == h && c1 == n.Line()[k] && c2 == node.Line()[k]
      invariant Climbed(n.Line(), h) + lst == Climbed(n.Line(), k)
      invariant Meet(n, node) == MeetFrom(n.Line(), node.Line(), k)
      decreases k
    {
      LineUp(t, n, k);
      LineUp(t, node, k);
      ClimbOne(n.Line(), k);
      assert Climbed(n.Line(), h) + (lst + [c1.name]) == Climbed(n.Line(), h) + lst + [c1.name];
      lst := lst + [c1.name];
      up := up + 1;
      c1 := c1.parent;
      c2 := c2.parent;
      k := k - 1;
    }
  }

  method Reverse(q: seq<string>) returns (r: seq<string>)
    ensures r == Backwards(q)
  {
    r := [];
    for i := 0 to |q|
      invariant |r| == i && forall j :: 0 <= j < i ==> r[j] == q[i - 1 - j]
    {
      r := [q[i]] + r;
    }
  }

  /** Each node of the trail is where the next part leads from the one before. */
  ghost predicate Trail(trail: seq<Node>, parts: seq<string>)
    reads trail
  {
    |trail| == |parts| + 1 && forall j :: 0 <= j < |parts| ==> Leads(trail[j], parts[j], trail[j + 1])
  }

  ghost predicate Leads(a: Node, x: string, b: Node)
    reads a
  {
    if x == ".." then b == (if a.parent == null then a else a.parent)
    else x in a.children && a.children[x] == b
  }

  lemma {:induction false} TrailEnds(t: set<Node>, trail: seq<Node>, parts: seq<string>)
    requires Tree(t) && Trail(trail, parts) && trail[0] in t
    ensures Descend(t, trail[0], parts) == trail[|parts|]
    decreases |parts|
  {
    if parts == [] {
      DescendNowhere(t, trail[0], parts);
    } else {
      TrailRest(trail, parts);
      DescendOnce(t, trail[0], parts);
      hide Tree, Descend, Trail;
      TrailEnds(t, trail[1..], parts[1..]);
    }
  }

  lemma TrailRest(trail: seq<Node>, parts: seq<string>)
    requires Trail(trail, parts) && parts != []
    ensures Leads(trail[0], parts[0], trail[1]) && Trail(trail[1..], parts[1..])
  {
    assert Leads(trail[0], parts[0], trail[0 + 1]);
    hide Leads;
    forall j | 0 <= j < |parts| - 1
      ensures Leads(trail[1..][j], parts[1..][j], trail[1..][j + 1])
    {
      assert Leads(trail[j + 1], parts[j + 1], trail[j + 1 + 1]);
    }
  }

  /** A new node; `null` stands for the error when the parent has a child of that name. */
  method NewNode(x: string, p: Node) returns (r: Node?)
    modifies p`children
    ensures r == null <==> x in old(p.children)
    ensures r == null ==> p.children == old(p.children)
    ensures r != null ==>
      && fresh(r) && r.name == x && r.parent == p && r.above == p.above + [p] && r.children == map[]
      && p.children == old(p.children)[x := r]
  {
    if x in p.children {
      return null;
    }
    r := new Node.Below(x, p);
  }

  method AddChild(ghost t: set<Node>, cur: Node, x: string) returns (r: Node)
    requires Tree(t) && cur in t && x !in cur.children && x != ".."
    modifies cur`children
    ensures fresh(r) && Tree(t + {r}) && r.name == x
    ensures cur.children == old(cur.children)[x := r]
  {
    var made := NewNode(x, cur);
    r := made;
    ghost var u := t + {r};
    assert Placed(u, r) && Holds(u, r);
    forall n | n in t
      ensures Placed(u, n) && Holds(u, n)
    {
      assert old(Placed(t, n)) && old(Holds(t, n));
    }
  }

  /** No child is lost or replaced. */
  twostate predicate Kept(t: set<Node>)
    reads t
  {
    forall n :: n in t ==> KeptAt(n)
  }

  twostate predicate KeptAt(n: Node)
    reads n
  {
    forall k :: k in old(n.children) ==> k in n.children && n.children[k] == old(n.children[k])
  }

  twostate predicate Same(t: set<Node>)
    reads t
  {
    forall n :: n in t ==> n.children == old(n.children)
  }

  lemma TrailMore(trail: seq<Node>, parts: seq<string>, x: string, next: Node)
    requires Trail(trail, parts) && Leads(trail[|parts|], x, next)
    ensures Trail(trail + [next], parts + [x])
  {
    var q, w := trail + [next], parts + [x];
    forall j | 0 <= j < |w|
      ensures Leads(q[j], w[j], q[j + 1])
    {
      if j < |parts| {
        assert Leads(trail[j], parts[j], trail[j + 1]);
      }
    }
  }

  /** One part of the path; a child is made only where none has the name. */
  method NextNode(ghost t: set<Node>, was: Node, x: string) returns (cur: Node, ghost u: set<Node>)
    requires Tree(t) && was in t
    modifies was`children
    ensures t <= u && fresh(u - t) && Tree(u) && cur in u && Leads(was, x, cur) && Kept(t)
    ensures Named(t) && (x == ".." || ProperName(x)) ==> Named(u)
    ensures x == ".." || x in old(was.children) ==> u == t && Same(t)
  {
    assert Placed(t, was) && Holds(t, was);
    cur, u := was, t;
    if x == ".." {
      cur := if cur.parent == null then cur else cur.parent;
    } else if x in cur.children {
      cur := cur.children[x];
    } else {
      cur := AddChild(t, was, x);
      u := t + {cur};
    }
  }

  /** The trail one node longer. */
  method Follow(ghost u: set<Node>, ghost trail: seq<Node>, ghost parts: seq<string>, was: Node, x: string)
    returns (cur: Node, ghost v: set<Node>)
    requires Tree(u) && Trail(trail, parts) && (forall j :: 0 <= j < |trail| ==> trail[j] in u)
    requires trail[|parts|] == was
    modifies was`children
    ensures u <= v && fresh(v - u) && Tree(v) && cur in v && Kept(u) && Trail(trail + [cur], parts + [x])
    ensures Named(u) && (x == ".." || ProperName(x)) ==> Named(v)
  {
    cur, v := NextNode(u, was, x);
    forall j | 0 <= j < |parts|
      ensures Leads(trail[j], parts[j], trail[j + 1])
    {
      assert old(Leads(trail[j], parts[j], trail[j + 1]));
      assert KeptAt(trail[j]);
    }
    TrailMore(trail, parts, x, cur);
  }

  ghost predicate Wayable(parts: seq<string>) {
    forall i :: 0 <= i < |parts| ==> parts[i] == ".." || ProperName(parts[i])
  }

  /** The node at the end of the path, made where it is missing, whatever the parts are: what was there stays
      there, and afterwards following the same parts leads to what was returned. */
  method MakeNode(ghost t: set<Node>, start: Node, lst: seq<string>) returns (cur: Node, ghost u: set<Node>)
    requires Tree(t) && start in t
    modifies t
    ensures t <= u && fresh(u - t) && Tree(u) && cur == Descend(u, start, lst) && Kept(t)
    ensures Named(t) && Wayable(lst) ==> Named(u)
  {
    hide Tree, Trail, Leads, ProperName, Descend, Named;
    cur, u := start, t;
    ghost var trail := [start];
    var i := 0;
    TrailNone(start);
    while i < |lst|
      invariant 0 <= i <= |lst| && t <= u && fresh(u - t) && Tree(u) && Kept(t)
      invariant |trail| == i + 1 && trail[0] == start && trail[i] == cur && Trail(trail, lst[..i])
      invariant forall j :: 0 <= j <= i ==> trail[j] in u
      invariant Named(t) && Wayable(lst) ==> Named(u)
    {
      ghost var v;
      cur, v := Follow(u, trail, lst[..i], cur, lst[i]);
      u := v;
      assert lst[..i + 1] == lst[..i] + [lst[i]];
      trail := trail + [cur];
      i := i + 1;
    }
    assert lst[..i] == lst;
    TrailEnds(u, trail, lst);
  }

  /** With a text for a path: the tree stays one whose names are parts of paths, and `search_node` with that text
      finds what was returned. */
  method MakeNodeAt(ghost t: set<Node>, start: Node, path: string) returns (cur: Node, ghost u: set<Node>)
    requires Tree(t) && Named(t) && start in t
    modifies t
    ensures t <= u && fresh(u - t) && Tree(u) && Named(u) && cur == Descend(u, start, Parts(path)) && Kept(t)
  {
    hide Tree, Descend, Named, Parts, Wayable, Kept;
    PartsWayable(path);
    cur, u := MakeNode(t, start, Parts(path));
  }

  lemma {:induction false} SplitNoSlash(word: string, s: string)
    requires NoSlash(word)
    ensures forall i :: 0 <= i < |SplitFrom(word, s)| ==> NoSlash(SplitFrom(word, s)[i])
    decreases |s|
  {
    if s != "" {
      if s[0] == '/' {
        SplitNoSlash("", s[1..]);
      } else {
        SplitNoSlash(word + [s[0]], s[1..]);
      }
    }
  }

  lemma {:induction false} KeepWayable(q: seq<string>)
    requires forall i :: 0 <= i < |q| ==> NoSlash(q[i])
    ensures Wayable(Keep(q))
  {
    if q != [] {
      KeepWayable(q[1..]);
    }
  }

  lemma PartsWayable(path: string)
    ensures Wayable(Parts(path))
  {
    SplitNoSlash("", path);
    KeepWayable(SplitFrom("", path));
  }

  lemma TrailNone(start: Node)
    ensures Trail([start], [])
  {
  }
}
