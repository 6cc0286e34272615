/** Conditional inclusion on well-nested files: the stack of marks does what recursion over the nesting does. */
module Conditionals {
  import opened Basics
  import opened Preproc

  /** The lines of a well-nested file: a conditional block has a first part, further arms and an end. */
  datatype Tree =
    | Nil
    | Plainly(line: Line, rest: Tree)
    | Block(head: Line, body: Tree, arms: Arms, rest: Tree)
  datatype Arms = NoArms | Arm(head: Line, body: Tree, more: Arms)

  ghost predicate Proper(t: Tree) {
    match t
    case Nil => true
    case Plainly(l, rest) => Plain(l) && Proper(rest)
    case Block(h, b, arms, rest) => Opens(h) && Proper(b) && ProperArms(arms) && Proper(rest)
  }

  ghost predicate ProperArms(a: Arms) {
    match a
    case NoArms => true
    case Arm(h, b, more) => StartsArm(h) && Proper(b) && ProperArms(more)
  }

  ghost function Flat(t: Tree): seq<Line> {
    match t
    case Nil => []
    case Plainly(l, rest) => [l] + Flat(rest)
    case Block(h, b, arms, rest) => [h] + Flat(b) + FlatArms(arms) + [Endif] + Flat(rest)
  }

  ghost function FlatArms(a: Arms): seq<Line> {
    match a
    case NoArms => []
    case Arm(h, b, more) => [h] + Flat(b) + FlatArms(more)
  }

  ghost predicate IsTree(t: Tree, lines: seq<Line>) {
    Proper(t) && Flat(t) == lines
  }

  ghost predicate HasTree(lines: seq<Line>) {
    exists t :: IsTree(t, lines)
  }

  ghost predicate WellNested(w: World) {
    forall f :: w.read(f).Lines? ==> HasTree(w.read(f).lines)
  }

  ghost function TreeOf(lines: seq<Line>): Tree
    requires HasTree(lines)
  {
    var t :| IsTree(t, lines); t
  }

  // --- the meaning: no stack, only the nesting

  /** A line that includes: the body, if any, is that of a file the world can read. */
  lemma BodyHasTree(w: World, s: Scan, line: Line)
    requires WellNested(w) && s.dirs != [] && Step(w, s, line).body.Some?
    ensures HasTree(Step(w, s, line).body.value)
  {
  }

  lemma LowerRoom(s: Scan, r: Scan)
    requires s.dirs <= r.dirs
    ensures Room(r) <= Room(s)
  {
  }

  /** Everything in a tree, the first arm that holds in each block. When the first condition of a block cannot
      be evaluated, all its parts. */
  ghost function Meaning(w: World, s: Scan, t: Tree): (r: Scan)
    requires WellNested(w) && s.dirs != []
    ensures s.dirs <= r.dirs
    decreases Room(s), t
  {
    match t
    case Nil => s
    case Plainly(l, rest) =>
      StepDirs(w, s, l);
      var u := Step(w, s, l);
      if u.body.None? then
        LowerRoom(s, u.scan);
        Meaning(w, u.scan, rest)
      else
        BodyHasTree(w, s, l);
        var v := Close(Meaning(w, u.scan, TreeOf(u.body.value)));
        LowerRoom(s, v);
        Meaning(w, v, rest)
    case Block(h, b, arms, rest) =>
      var truth := Judge(w, s.defs, h);
      if truth.Fails? then
        var u := FirstArm(w, s, arms);
        LowerRoom(s, u);
        Meaning(w, u, rest)
      else
        var v := Meaning(w, s, b);
        LowerRoom(s, v);
        if truth.Holds? then Meaning(w, v, rest)
        else
          var u := EveryArm(w, v, arms);
          LowerRoom(s, u);
          Meaning(w, u, rest)
  }

  /** The first arm whose condition holds; one that cannot be evaluated does not. */
  ghost function FirstArm(w: World, s: Scan, a: Arms): (r: Scan)
    requires WellNested(w) && s.dirs != []
    ensures s.dirs <= r.dirs
    decreases Room(s), a
  {
    match a
    case NoArms => s
    case Arm(h, b, more) => if Judge(w, s.defs, h).Holds? then Meaning(w, s, b) else FirstArm(w, s, more)
  }

  ghost function EveryArm(w: World, s: Scan, a: Arms): (r: Scan)
    requires WellNested(w) && s.dirs != []
    ensures s.dirs <= r.dirs
    decreases Room(s), a
  {
    match a
    case NoArms => s
    case Arm(_, b, more) =>
      var u := Meaning(w, s, b);
      LowerRoom(s, u);
      EveryArm(w, u, more)
  }

  // --- reading in parts

  lemma {:induction false} ReadAppend(w: World, s: Scan, a: seq<Line>, b: seq<Line>)
    requires s.dirs != []
    ensures Read(w, s, a + b) == Read(w, Read(w, s, a), b)
    decreases Room(s), |a|
  {
    hide Step, Close;
    if a == [] {
      assert [] + b == b;
    } else {
      assert (a + b)[0] == a[0] && (a + b)[1..] == a[1..] + b;
      StepDirs(w, s, a[0]);
      var t := Step(w, s, a[0]);
      if t.body.None? {
        LowerRoom(s, t.scan);
        ReadAppend(w, t.scan, a[1..], b);
      } else {
        var v := Close(Read(w, t.scan, t.body.value));
        CloseKeeps(s, Read(w, t.scan, t.body.value));
        LowerRoom(s, v);
        ReadAppend(w, v, a[1..], b);
      }
    }
  }

  lemma CloseKeeps(s: Scan, r: Scan)
    requires s.dirs <= r.dirs && |r.dirs| > |s.dirs|
    ensures s.dirs <= Close(r).dirs
  {
  }

  lemma ReadHead(w: World, s: Scan, line: Line, rest: seq<Line>)
    requires s.dirs != [] && !line.Include?
    ensures Read(w, s, [line] + rest) == Read(w, Apply(w, s, line), rest)
  {
    assert ([line] + rest)[1..] == rest;
  }

  lemma ReadInclude(w: World, s: Scan, line: Line, rest: seq<Line>)
    requires s.dirs != []
    ensures
      var u := Step(w, s, line);
      && u.scan.dirs != []
      && Read(w, s, [line] + rest)
           == Read(w, if u.body.None? then u.scan else Close(Read(w, u.scan, u.body.value)), rest)
  {
    assert ([line] + rest)[1..] == rest;
    StepDirs(w, s, line);
  }

  // --- a part that is passed over

  lemma {:induction false} Idle(w: World, s: Scan, t: Tree)
    requires s.dirs != [] && (Ignored in s.state || Skipped in s.state) && Proper(t)
    ensures Read(w, s, Flat(t)) == s
    decreases t
  {
    match t
    case Nil =>
    case Plainly(l, rest) =>
      ReadInclude(w, s, l, Flat(rest));
      Idle(w, s, rest);
    case Block(h, b, arms, rest) =>
      var u := s.(state := s.state + [Undefined]);
      IdleBlock(w, s, h, Flat(b), FlatArms(arms), Flat(rest));
      Idle(w, u, b);
      IdleArms(w, u, s.state, Undefined, arms);
      EndPops(w, s, s.state, Undefined, Flat(rest));
      Idle(w, s, rest);
  }

  lemma IdleBlock(w: World, s: Scan, h: Line, b: seq<Line>, arms: seq<Line>, rest: seq<Line>)
    requires s.dirs != [] && !Active(s.state) && Opens(h)
    ensures
      var u := s.(state := s.state + [Undefined]);
      Read(w, s, [h] + b + arms + [Endif] + rest) == Read(w, Read(w, Read(w, u, b), arms), [Endif] + rest)
  {
    var u := s.(state := s.state + [Undefined]);
    assert [h] + b + arms + [Endif] + rest == [h] + (b + (arms + ([Endif] + rest)));
    assert Apply(w, s, h) == u;
    ReadHead(w, s, h, b + (arms + ([Endif] + rest)));
    ReadAppend(w, u, b, arms + ([Endif] + rest));
    ReadAppend(w, Read(w, u, b), arms, [Endif] + rest);
  }

  lemma {:induction false} IdleArms(w: World, s: Scan, under: seq<Mark>, m: Mark, a: Arms)
    requires s.dirs != [] && s.state == under + [m] && ProperArms(a)
    requires m == Skipped || (m == Undefined && !Active(under))
    ensures Read(w, s, FlatArms(a)) == s
    decreases a
  {
    match a
    case NoArms =>
    case Arm(h, b, more) =>
      assert FlatArms(a) == [h] + (Flat(b) + FlatArms(more));
      ReadHead(w, s, h, Flat(b) + FlatArms(more));
      assert Apply(w, s, h) == s;
      ReadAppend(w, s, Flat(b), FlatArms(more));
      Idle(w, s, b);
      IdleArms(w, s, under, m, more);
  }

  ghost function Under(s: Scan, marks: seq<Mark>): Scan {
    s.(state := marks)
  }

  lemma EndPops(w: World, s: Scan, under: seq<Mark>, m: Mark, rest: seq<Line>)
    requires s.dirs != []
    ensures Read(w, Under(s, under + [m]), [Endif] + rest) == Read(w, Under(s, under), rest)
  {
    var u := Under(s, under + [m]);
    ReadHead(w, u, Endif, rest);
    assert Apply(w, u, Endif) == Under(s, under);
  }

  // --- a part that counts

  lemma PlainUnder(w: World, s: Scan, marks: seq<Mark>, line: Line)
    requires s.dirs != [] && s.state == [] && Active(marks) && Plain(line)
    ensures Step(w, Under(s, marks), line) == Stepped(Under(Step(w, s, line).scan, marks), Step(w, s, line).body)
    ensures Step(w, s, line).scan.state == []
  {
  }

  lemma HeadUnder(w: World, s: Scan, marks: seq<Mark>, h: Line)
    requires s.dirs != [] && Active(marks) && Opens(h)
    ensures Apply(w, Under(s, marks), h) ==
      Under(s, marks + [match Judge(w, s.defs, h) case Holds => Accepted case Fails => Ignored
                        case Broken => Undefined])
  {
  }

  lemma BlockUnder(w: World, s: Scan, marks: seq<Mark>, h: Line, b: seq<Line>, arms: seq<Line>, rest: seq<Line>)
    requires s.dirs != [] && Opens(h)
    ensures
      var u := Apply(w, Under(s, marks), h);
      u.dirs == s.dirs && Read(w, Under(s, marks), [h] + b + arms + [Endif] + rest)
        == Read(w, Read(w, Read(w, u, b), arms), [Endif] + rest)
  {
    var u := Apply(w, Under(s, marks), h);
    assert [h] + b + arms + [Endif] + rest == [h] + (b + (arms + ([Endif] + rest)));
    ReadHead(w, Under(s, marks), h, b + (arms + ([Endif] + rest)));
    ReadAppend(w, u, b, arms + ([Endif] + rest));
    ReadAppend(w, Read(w, u, b), arms, [Endif] + rest);
  }

  lemma ArmUnder(w: World, s: Scan, marks: seq<Mark>, h: Line, b: seq<Line>, more: seq<Line>)
    requires s.dirs != [] && StartsArm(h) && marks != []
    ensures
      var u := Apply(w, Under(s, marks), h);
      u.dirs == s.dirs && Read(w, Under(s, marks), [h] + b + more) == Read(w, Read(w, u, b), more)
  {
    var u := Apply(w, Under(s, marks), h);
    assert [h] + b + more == [h] + (b + more);
    ReadHead(w, Under(s, marks), h, b + more);
    ReadAppend(w, u, b, more);
  }

  /** Under marks that let lines through, reading the lines of a tree is its meaning. */
  lemma {:induction false} Agrees(w: World, s: Scan, marks: seq<Mark>, t: Tree)
    requires WellNested(w) && s.dirs != [] && s.state == [] && Active(marks) && Proper(t)
    ensures Read(w, Under(s, marks), Flat(t)) == Under(Meaning(w, s, t), marks)
    ensures Meaning(w, s, t).state == []
    decreases Room(s), t, 1
  {
    hide Step, Apply, WellNested, Judge;
    match t
    case Nil =>
    case Plainly(l, rest) =>
      AgreesPlain(w, s, marks, l, rest);
    case Block(h, b, arms, rest) =>
      AgreesBlock(w, s, marks, t);
  }

  lemma {:induction false} AgreesPlain(w: World, s: Scan, marks: seq<Mark>, l: Line, rest: Tree)
    requires WellNested(w) && s.dirs != [] && s.state == [] && Active(marks) && Proper(Plainly(l, rest))
    ensures Read(w, Under(s, marks), Flat(Plainly(l, rest))) == Under(Meaning(w, s, Plainly(l, rest)), marks)
    ensures Meaning(w, s, Plainly(l, rest)).state == []
    decreases Room(s), Plainly(l, rest), 0
  {
    hide Step, Apply, WellNested;
    var u := Step(w, s, l);
    StepDirs(w, s, l);
    LowerRoom(s, u.scan);
    PlainUnder(w, s, marks, l);
    ReadInclude(w, Under(s, marks), l, Flat(rest));
    if u.body.None? {
      Agrees(w, u.scan, marks, rest);
    } else {
      BodyHasTree(w, s, l);
      var body := TreeOf(u.body.value);
      assert IsTree(body, u.body.value);
      var v := Close(Meaning(w, u.scan, body));
      Agrees(w, u.scan, marks, body);
      LowerRoom(s, v);
      Agrees(w, v, marks, rest);
    }
  }

  lemma {:induction false} AgreesBlock(w: World, s: Scan, marks: seq<Mark>, t: Tree)
    requires WellNested(w) && s.dirs != [] && s.state == [] && Active(marks) && Proper(t) && t.Block?
    ensures Read(w, Under(s, marks), Flat(t)) == Under(Meaning(w, s, t), marks)
    ensures Meaning(w, s, t).state == []
    decreases Room(s), t, 0
  {
    hide Step, Apply, WellNested, Judge, Read;
    var h, b, arms, rest := t.head, t.body, t.arms, t.rest;
    BlockUnder(w, s, marks, h, Flat(b), FlatArms(arms), Flat(rest));
    HeadUnder(w, s, marks, h);
    match Judge(w, s.defs, h)
    case Holds =>
      var v := Meaning(w, s, b);
      Agrees(w, s, marks + [Accepted], b);
      LowerRoom(s, v);
      var m := TakenArms(w, v, marks, arms);
      EndPops(w, v, marks, m, Flat(rest));
      Agrees(w, v, marks, rest);
    case Fails =>
      Idle(w, Under(s, marks + [Ignored]), b);
      var m := PendingArms(w, s, marks, arms);
      var u := FirstArm(w, s, arms);
      LowerRoom(s, u);
      EndPops(w, u, marks, m, Flat(rest));
      Agrees(w, u, marks, rest);
    case Broken =>
      var v := Meaning(w, s, b);
      Agrees(w, s, marks + [Undefined], b);
      LowerRoom(s, v);
      OpenArms(w, v, marks, arms);
      var u := EveryArm(w, v, arms);
      LowerRoom(s, u);
      EndPops(w, u, marks, Undefined, Flat(rest));
      Agrees(w, u, marks, rest);
  }

  /** Once an arm was taken the others are passed over. */
  lemma {:induction false} TakenArms(w: World, s: Scan, marks: seq<Mark>, a: Arms) returns (m: Mark)
    requires s.dirs != [] && ProperArms(a)
    ensures Read(w, Under(s, marks + [Accepted]), FlatArms(a)) == Under(s, marks + [m])
  {
    match a
    case NoArms =>
      m := Accepted;
    case Arm(h, b, more) =>
      m := Skipped;
      ArmUnder(w, s, marks + [Accepted], h, Flat(b), FlatArms(more));
      assert Apply(w, Under(s, marks + [Accepted]), h) == Under(s, marks + [Skipped]);
      Idle(w, Under(s, marks + [Skipped]), b);
      IdleArms(w, Under(s, marks + [Skipped]), marks, Skipped, more);
  }

  /** As long as none was taken, the first that holds is. */
  lemma {:induction false} PendingArms(w: World, s: Scan, marks: seq<Mark>, a: Arms) returns (m: Mark)
    requires WellNested(w) && s.dirs != [] && s.state == [] && Active(marks) && ProperArms(a)
    ensures Read(w, Under(s, marks + [Ignored]), FlatArms(a)) == Under(FirstArm(w, s, a), marks + [m])
    ensures FirstArm(w, s, a).state == []
    decreases Room(s), a
  {
    hide Step, WellNested, Judge, Read;
    match a
    case NoArms =>
      NothingRead(w, Under(s, marks + [Ignored]));
      m := Ignored;
    case Arm(h, b, more) =>
      ArmUnder(w, s, marks + [Ignored], h, Flat(b), FlatArms(more));
      PendingHead(w, s, marks, h);
      if Judge(w, s.defs, h).Holds? {
        Agrees(w, s, marks + [Accepted], b);
        m := TakenArms(w, Meaning(w, s, b), marks, more);
      } else {
        Idle(w, Under(s, marks + [Ignored]), b);
        m := PendingArms(w, s, marks, more);
      }
  }

  lemma NothingRead(w: World, s: Scan)
    requires s.dirs != []
    ensures Read(w, s, []) == s
  {
  }

  lemma PendingHead(w: World, s: Scan, marks: seq<Mark>, h: Line)
    requires StartsArm(h)
    ensures Apply(w, Under(s, marks + [Ignored]), h) ==
      Under(s, marks + [if Judge(w, s.defs, h).Holds? then Accepted else Ignored])
  {
  }

  /** Under a condition that could not be evaluated every arm counts. */
  lemma {:induction false} OpenArms(w: World, s: Scan, marks: seq<Mark>, a: Arms)
    requires WellNested(w) && s.dirs != [] && s.state == [] && Active(marks) && ProperArms(a)
    ensures Read(w, Under(s, marks + [Undefined]), FlatArms(a)) == Under(EveryArm(w, s, a), marks + [Undefined])
    ensures EveryArm(w, s, a).state == []
    decreases Room(s), a
  {
    hide Step, WellNested, Judge, Read;
    match a
    case NoArms =>
      NothingRead(w, Under(s, marks + [Undefined]));
    case Arm(h, b, more) =>
      ArmUnder(w, s, marks + [Undefined], h, Flat(b), FlatArms(more));
      assert Apply(w, Under(s, marks + [Undefined]), h) == Under(s, marks + [Undefined]);
      Agrees(w, s, marks + [Undefined], b);
      LowerRoom(s, Meaning(w, s, b));
      OpenArms(w, Meaning(w, s, b), marks, more);
  }

  /** The lines of a tree with others before it that are not about conditions. */
  ghost function After(lines: seq<Line>, t: Tree): Tree {
    if lines == [] then t else Plainly(lines[0], After(lines[1..], t))
  }

  lemma {:induction false} AfterIsTree(lines: seq<Line>, t: Tree)
    requires Proper(t) && forall l :: l in lines ==> Plain(l)
    ensures IsTree(After(lines, t), lines + Flat(t))
    decreases |lines|
  {
    if lines == [] {
      assert lines + Flat(t) == Flat(t);
    } else {
      AfterIsTree(lines[1..], t);
      assert lines + Flat(t) == [lines[0]] + (lines[1..] + Flat(t));
    }
  }

  /** On well-nested files the parser's stacks of lines and of marks perform exactly what recursion over
      files and blocks performs, and end with no mark left. */
  lemma StackIsRecursion(w: World, s: Scan, node: File, defines: seq<Line>)
    requires WellNested(w) && s.state == [] && w.read(node).Lines? && forall l :: l in defines ==> l.Define?
    ensures HasTree(w.read(node).lines)
    ensures
      var r := Scanned(w, s, node, defines + w.read(node).lines);
      var first := s.(current := Some(node), dirs := [w.parent(node)]);
      r == Close(Meaning(w, first, After(defines, TreeOf(w.read(node).lines)))) && r.state == []
  {
    var first := s.(current := Some(node), dirs := [w.parent(node)]);
    assert HasTree(w.read(node).lines);
    var file := TreeOf(w.read(node).lines);
    assert IsTree(file, w.read(node).lines);
    var t := After(defines, file);
    AfterIsTree(defines, file);
    Agrees(w, first, [], t);
    assert Under(first, []) == first;
    assert Under(Meaning(w, first, t), []) == Meaning(w, first, t);
  }

  // --- what the lines mean, one kind at a time

  /** No enclosing block is being passed over. */
  ghost predicate Open(s: Scan) {
    s.dirs != [] && forall m :: m in s.state ==> m == Accepted || m == Undefined
  }

  lemma ReadIsMeaning(w: World, s: Scan, t: Tree)
    requires WellNested(w) && Open(s) && Proper(t)
    ensures Read(w, s, Flat(t)) == Under(Meaning(w, Under(s, []), t), s.state)
  {
    Agrees(w, Under(s, []), s.state, t);
    assert Under(Under(s, []), s.state) == s;
  }

  /** A block of two parts, and one of three. */
  ghost function Either(h: Line, body: Tree, other: Tree): Tree {
    Block(h, body, Arm(Else, other, NoArms), Nil)
  }

  ghost function Among(h: Line, body: Tree, g: Line, second: Tree, other: Tree): Tree {
    Block(h, body, Arm(g, second, Arm(Else, other, NoArms)), Nil)
  }

  lemma FlatBlock(h: Line, b: Tree, arms: Arms)
    ensures Flat(Block(h, b, arms, Nil)) == [h] + Flat(b) + FlatArms(arms) + [Endif] + []
  {
  }

  lemma FlatArm(h: Line, b: Tree, more: Arms)
    ensures FlatArms(Arm(h, b, more)) == [h] + Flat(b) + FlatArms(more)
    ensures FlatArms(NoArms) == []
  {
  }

  lemma Regroup(a: seq<Line>, b: seq<Line>, c: seq<Line>, d: seq<Line>)
    ensures a + (b + c + []) + d + [] == a + b + c + d
  {
  }

  lemma RegroupMore(a: seq<Line>, b: seq<Line>, c: seq<Line>, d: seq<Line>)
    ensures a + (b + (c + [])) + d + [] == a + b + c + d
  {
  }

  lemma Assoc(a: seq<Line>, b: seq<Line>, c: seq<Line>)
    ensures a + (b + c) == a + b + c
  {
  }

  lemma EitherFlat(h: Line, body: Tree, other: Tree)
    ensures Flat(Either(h, body, other)) == [h] + Flat(body) + [Else] + Flat(other) + [Endif]
  {
    var arms := Arm(Else, other, NoArms);
    assert Either(h, body, other) == Block(h, body, arms, Nil);
    hide *;
    FlatArm(Else, other, NoArms);
    FlatBlock(h, body, arms);
    Regroup([h] + Flat(body), [Else], Flat(other), [Endif]);
  }

  lemma AmongFlat(h: Line, body: Tree, g: Line, second: Tree, other: Tree)
    ensures Flat(Among(h, body, g, second, other))
      == [h] + Flat(body) + [g] + Flat(second) + [Else] + Flat(other) + [Endif]
  {
    var last := Arm(Else, other, NoArms);
    var arms := Arm(g, second, last);
    assert Among(h, body, g, second, other) == Block(h, body, arms, Nil);
    hide *;
    FlatArm(Else, other, NoArms);
    FlatArm(g, second, last);
    FlatBlock(h, body, arms);
    var a, b, c := [h] + Flat(body), [g] + Flat(second), [Else] + Flat(other);
    RegroupMore(a, b, c, [Endif]);
    Assoc(a, [g], Flat(second));
    Assoc(a + b, [Else], Flat(other));
  }

  lemma BlockMeans(w: World, s: Scan, h: Line, b: Tree, arms: Arms)
    requires WellNested(w) && s.dirs != []
    ensures Meaning(w, s, Block(h, b, arms, Nil)) ==
      match Judge(w, s.defs, h)
      case Holds => Meaning(w, s, b)
      case Fails => FirstArm(w, s, arms)
      case Broken => EveryArm(w, Meaning(w, s, b), arms)
  {
    hide Judge, WellNested;
  }

  lemma ArmMeans(w: World, s: Scan, h: Line, b: Tree, more: Arms)
    requires WellNested(w) && s.dirs != []
    ensures FirstArm(w, s, Arm(h, b, more)) ==
      if Judge(w, s.defs, h).Holds? then Meaning(w, s, b) else FirstArm(w, s, more)
    ensures EveryArm(w, s, Arm(h, b, more)) == EveryArm(w, Meaning(w, s, b), more)
  {
    hide Judge, WellNested;
  }

  lemma NoArmMeans(w: World, s: Scan)
    requires WellNested(w) && s.dirs != []
    ensures FirstArm(w, s, NoArms) == s && EveryArm(w, s, NoArms) == s
  {
  }

  lemma EitherMeans(w: World, s: Scan, h: Line, body: Tree, other: Tree)
    requires WellNested(w) && s.dirs != []
    ensures Judge(w, s.defs, h).Holds? ==> Meaning(w, s, Either(h, body, other)) == Meaning(w, s, body)
    ensures Judge(w, s.defs, h).Fails? ==> Meaning(w, s, Either(h, body, other)) == Meaning(w, s, other)
  {
    ElseHolds(w, s.defs);
    hide Judge, WellNested, Meaning, FirstArm, EveryArm;
    BlockMeans(w, s, h, body, Arm(Else, other, NoArms));
    ArmMeans(w, s, Else, other, NoArms);
  }

  lemma ElseHolds(w: World, defs: Defs)
    ensures Judge(w, defs, Else).Holds?
  {
  }

  /** `#ifdef` takes its first part exactly when the name is defined, and `#ifndef` exactly when it is not; the
      other part has no effect. */
  lemma ChoosesByName(w: World, s: Scan, n: Option<Name>, body: Tree, other: Tree)
    requires WellNested(w) && Open(s) && Proper(body) && Proper(other)
    ensures Read(w, s, [Ifdef(n)] + Flat(body) + [Else] + Flat(other) + [Endif])
      == Read(w, s, if n.Some? && n.value in s.defs then Flat(body) else Flat(other))
    ensures Read(w, s, [Ifndef(n)] + Flat(body) + [Else] + Flat(other) + [Endif])
      == Read(w, s, if n.Some? && n.value in s.defs then Flat(other) else Flat(body))
  {
    NamesJudged(w, Under(s, []), n);
    EitherReads(w, s, Ifdef(n), body, other);
    EitherReads(w, s, Ifndef(n), body, other);
    hide WellNested, Open, Read, Flat, Judge, Proper;
  }

  lemma OpenDirs(s: Scan)
    requires Open(s)
    ensures s.dirs != []
  {
  }

  lemma EitherProper(h: Line, body: Tree, other: Tree)
    requires Opens(h) && Proper(body) && Proper(other)
    ensures Proper(Either(h, body, other))
  {
    assert ProperArms(NoArms) && Proper(Nil);
    assert ProperArms(Arm(Else, other, NoArms));
  }

  lemma EitherReads(w: World, s: Scan, h: Line, body: Tree, other: Tree)
    requires WellNested(w) && Open(s) && Opens(h) && Proper(body) && Proper(other)
    requires !Judge(w, Under(s, []).defs, h).Broken?
    ensures Read(w, s, [h] + Flat(body) + [Else] + Flat(other) + [Endif])
      == Read(w, s, if Judge(w, Under(s, []).defs, h).Holds? then Flat(body) else Flat(other))
  {
    var u := Under(s, []);
    hide Proper, Read, Meaning, Flat, WellNested, Open, Judge, Either;
    EitherFlat(h, body, other);
    OpenDirs(s);
    EitherMeans(w, u, h, body, other);
    EitherProper(h, body, other);
    ReadIsMeaning(w, s, Either(h, body, other));
    if Judge(w, u.defs, h).Holds? {
      ReadIsMeaning(w, s, body);
    } else {
      ReadIsMeaning(w, s, other);
    }
  }

  lemma NamesJudged(w: World, s: Scan, n: Option<Name>)
    ensures Judge(w, s.defs, Ifdef(n)) == if n.Some? && n.value in s.defs then Holds else Fails
    ensures Judge(w, s.defs, Ifndef(n)) == if n.Some? && n.value in s.defs then Fails else Holds
  {
  }

  lemma AmongMeans(w: World, s: Scan, c: string, body: Tree, d: string, second: Tree, other: Tree)
    requires WellNested(w) && s.dirs != []
    ensures
      var r := Meaning(w, s, Among(If(c), body, Elif(d), second, other));
      match w.eval(c, s.defs)
      case Holds => r == Meaning(w, s, body)
      case Fails => r == if w.eval(d, s.defs).Holds? then Meaning(w, s, second) else Meaning(w, s, other)
      case Broken => r == Meaning(w, Meaning(w, Meaning(w, s, body), second), other)
  {
    ElseHolds(w, s.defs);
    LineJudged(w, s.defs, c, d);
    hide Judge, WellNested, Meaning, FirstArm, EveryArm;
    var last := Arm(Else, other, NoArms);
    BlockMeans(w, s, If(c), body, Arm(Elif(d), second, last));
    ArmMeans(w, s, Elif(d), second, last);
    ArmMeans(w, s, Else, other, NoArms);
    var v := Meaning(w, s, body);
    ArmMeans(w, v, Elif(d), second, last);
    ArmMeans(w, Meaning(w, v, second), Else, other, NoArms);
    NoArmMeans(w, Meaning(w, Meaning(w, v, second), other));
  }

  lemma LineJudged(w: World, defs: Defs, c: string, d: string)
    ensures Judge(w, defs, If(c)) == w.eval(c, defs) && Judge(w, defs, Elif(d)) == w.eval(d, defs)
  {
  }

  /** `#if` takes its first part when its condition holds; when it fails, the `#elif` part is taken if its own
      condition holds, and the `#else` part if that fails or cannot be evaluated. When the first condition cannot
      be evaluated every part is read. */
  lemma ChoosesByValue(w: World, s: Scan, c: string, body: Tree, d: string, second: Tree, other: Tree)
    requires WellNested(w) && Open(s) && Proper(body) && Proper(second) && Proper(other)
    ensures
      var r := Read(w, s, [If(c)] + Flat(body) + [Elif(d)] + Flat(second) + [Else] + Flat(other) + [Endif]);
      match w.eval(c, s.defs)
      case Holds => r == Read(w, s, Flat(body))
      case Fails => r == Read(w, s, if w.eval(d, s.defs).Holds? then Flat(second) else Flat(other))
      case Broken => r == Read(w, Read(w, Read(w, s, Flat(body)), Flat(second)), Flat(other))
  {
    hide *;
    OpenUnder(s);
    var u := Under(s, []);
    UnderDefs(s);
    AmongFlat(If(c), body, Elif(d), second, other);
    AmongMeans(w, u, c, body, d, second, other);
    AmongProper(c, body, d, second, other);
    ReadIsMeaning(w, s, Among(If(c), body, Elif(d), second, other));
    match w.eval(c, s.defs)
    case Holds =>
      ReadIsMeaning(w, s, body);
    case Fails =>
      ReadIsMeaning(w, s, second);
      ReadIsMeaning(w, s, other);
    case Broken =>
      ReadInTurn(w, s, body, second, other);
  }

  lemma UnderDefs(s: Scan)
    ensures Under(s, []).defs == s.defs
  {
  }

  lemma AmongProper(c: string, body: Tree, d: string, second: Tree, other: Tree)
    requires Proper(body) && Proper(second) && Proper(other)
    ensures Proper(Among(If(c), body, Elif(d), second, other))
  {
    assert ProperArms(Arm(Else, other, NoArms));
  }

  /** One part after another. */
  lemma OpenUnder(s: Scan)
    requires Open(s)
    ensures var u := Under(s, []); Under(u, s.state) == s && u.dirs != [] && u.state == [] && Active(s.state)
  {
  }

  lemma ReadInTurn(w: World, s: Scan, a: Tree, b: Tree, c: Tree)
    requires WellNested(w) && Open(s) && Proper(a) && Proper(b) && Proper(c)
    ensures Read(w, Read(w, Read(w, s, Flat(a)), Flat(b)), Flat(c))
      == Under(Meaning(w, Meaning(w, Meaning(w, Under(s, []), a), b), c), s.state)
  {
    hide *;
    OpenUnder(s);
    var u := Under(s, []);
    Agrees(w, u, s.state, a);
    var v := Meaning(w, u, a);
    Agrees(w, v, s.state, b);
    Agrees(w, Meaning(w, v, b), s.state, c);
  }

  /** What the other lines do where no enclosing block is passed over. */
  lemma PlainLines(w: World, s: Scan, n: Name, text: string)
    requires Open(s)
    ensures Read(w, s, [Define(Some(n), text)]) == s.(defs := s.defs[n := text])
    ensures Read(w, s, [Undef(Some(n))]) == s.(defs := s.defs - {n})
    ensures Read(w, s, [Pragma(true)]) == s.(bans := s.bans + {s.current})
    ensures Read(w, s, [Define(None, text)]) == Read(w, s, [Undef(None)]) == Read(w, s, [Pragma(false)]) == s
  {
    ReadOne(w, s, Define(Some(n), text));
    ReadOne(w, s, Undef(Some(n)));
    ReadOne(w, s, Pragma(true));
    ReadOne(w, s, Define(None, text));
    ReadOne(w, s, Undef(None));
    ReadOne(w, s, Pragma(false));
    hide Read;
  }

  lemma ReadOne(w: World, s: Scan, line: Line)
    requires s.dirs != [] && !line.Include?
    ensures Read(w, s, [line]) == Apply(w, s, line)
  {
    ReadHead(w, s, line, []);
    assert [line] + [] == [line];
    NothingRead(w, Apply(w, s, line));
  }

  /** A file behind an include guard that is already defined has no effect at all. */
  lemma GuardKeepsOut(w: World, s: Scan, guard: Name, text: string, body: Tree)
    requires WellNested(w) && Open(s) && Proper(body) && guard in s.defs
    ensures Read(w, s, [Ifndef(Some(guard)), Define(Some(guard), text)] + Flat(body) + [Endif]) == s
  {
    var u, a, inner := Under(s, []), Ifndef(Some(guard)), Plainly(Define(Some(guard), text), body);
    GuardFlat(guard, text, body);
    NamesJudged(w, u, Some(guard));
    assert Under(u, s.state) == s && u.dirs != [] && u.defs == s.defs;
    assert Proper(Block(a, inner, NoArms, Nil));
    hide WellNested, Open, Read, Meaning, Flat, Under, Judge, Proper, FirstArm;
    ReadIsMeaning(w, s, Block(a, inner, NoArms, Nil));
    BlockMeans(w, u, a, inner, NoArms);
    NoArmMeans(w, u);
  }

  lemma GuardFlat(guard: Name, text: string, body: Tree)
    ensures Flat(Block(Ifndef(Some(guard)), Plainly(Define(Some(guard), text), body), NoArms, Nil))
      == [Ifndef(Some(guard)), Define(Some(guard), text)] + Flat(body) + [Endif]
  {
    var a, b, q := Ifndef(Some(guard)), Define(Some(guard), text), Flat(body);
    assert Flat(Plainly(b, body)) == [b] + q;
    assert [a] + ([b] + q) + [] + [Endif] + [] == [a, b] + q + [Endif];
  }

  // --- includes

  lemma {:induction false} FoundIs(w: World, dirs: seq<Dir>, name: string, found: Option<File>)
    requires FirstFound(w, dirs, name, found)
    ensures Found(w, dirs, name) == found
  {
    FoundIsFirst(w, dirs, name);
    var g := Found(w, dirs, name);
    if found.Some? && g.Some? {
      var i :| 0 <= i < |dirs| && w.find(dirs[i], name) == found && forall j :: 0 <= j < i ==>
        w.find(dirs[j], name) == None;
      var k :| 0 <= k < |dirs| && w.find(dirs[k], name) == g && forall j :: 0 <= j < k ==>
        w.find(dirs[j], name) == None;
      assert i == k;
    }
  }

  /** The include line names `name`, which counts, and `found` is what is looked up for it: next to the including
      file, then in the include paths in order. */
  ghost predicate Names(w: World, s: Scan, what: string, name: string, found: Option<File>) {
    && Open(s) && w.target(what, s.defs).Some? && w.target(what, s.defs).value.name == name
    && (w.target(what, s.defs).value.quoted || !w.strictQuotes)
    && !(|name| >= 4 && name[|name| - 4..] == ".moc")
    && FirstFound(w, [s.dirs[|s.dirs| - 1]] + w.nodepaths, name, found)
  }

  /** A file that is found, not banned, readable and not nested too deep is read where it is included, with names
      looked up from its own directory, and recorded. */
  lemma IncludeReads(w: World, s: Scan, what: string, once: bool, name: string, b: File)
    requires Names(w, s, what, name, Some(b)) && Some(b) !in s.bans && |s.dirs| < RECURSION_LIMIT && w.read(b).Lines?
    ensures
      var u := s.(nodes := s.nodes + [b], dirs := s.dirs + [w.parent(b)], current := Some(b),
                  bans := if once then s.bans + {Some(b)} else s.bans);
      && Step(w, s, Include(what, once)) == Stepped(u, Some(w.read(b).lines))
      && Read(w, s, [Include(what, once)]) == Close(Read(w, u, w.read(b).lines))
  {
    FoundIs(w, [s.dirs[|s.dirs| - 1]] + w.nodepaths, name, Some(b));
    EnterReads(w, s, what, once, name, b);
    hide Step, Names, Found;
    ReadInclude(w, s, Include(what, once), []);
    assert [Include(what, once)] + [] == [Include(what, once)];
    hide Read;
    NothingRead(w, Close(Read(w, Step(w, s, Include(what, once)).scan, w.read(b).lines)));
  }

  lemma EnterReads(w: World, s: Scan, what: string, once: bool, name: string, b: File)
    requires Names(w, s, what, name, Some(b)) && Some(b) !in s.bans && |s.dirs| < RECURSION_LIMIT && w.read(b).Lines?
    requires Found(w, [s.dirs[|s.dirs| - 1]] + w.nodepaths, name) == Some(b)
    ensures
      var u := s.(nodes := s.nodes + [b], dirs := s.dirs + [w.parent(b)], current := Some(b),
                  bans := if once then s.bans + {Some(b)} else s.bans);
      Step(w, s, Include(what, once)) == Stepped(u, Some(w.read(b).lines))
  {
    hide Found, FirstFound;
  }

  /** A banned file is not entered again, and a name that is not found is recorded once. */
  lemma IncludeStaysOut(w: World, s: Scan, what: string, once: bool, name: string, found: Option<File>)
    requires Names(w, s, what, name, found) && (found == None || found in s.bans)
    ensures Read(w, s, [Include(what, once)]) ==
      s.(names := if name in s.names then s.names else s.names + [name], current := found,
         bans := if once then s.bans + {found} else s.bans)
  {
    FoundIs(w, [s.dirs[|s.dirs| - 1]] + w.nodepaths, name, found);
    ReadInclude(w, s, Include(what, once), []);
    assert [Include(what, once)] + [] == [Include(what, once)];
    NothingRead(w, Step(w, s, Include(what, once)).scan);
  }

  // --- where the scanner and the language part ways

  /** The include of a file that is found and can be read. */
  lemma Entered(w: World, s: Scan, what: string, once: bool, target: Target, b: File)
    requires s.dirs != [] && |s.dirs| < RECURSION_LIMIT && Active(s.state) && w.target(what, s.defs) == Some(target)
    requires target.quoted && !IsMoc(target.name) && Some(b) !in s.bans && w.read(b).Lines?
    requires Found(w, [s.dirs[|s.dirs| - 1]] + w.nodepaths, target.name) == Some(b)
    ensures var u := Step(w, s, Include(what, once));
      u.body == Some(w.read(b).lines) && u.scan.current == Some(b) && u.scan.state == s.state && |u.scan.dirs| > 1
  {
  }

  /** Lines that include nothing leave the file looked for last as it is. */
  lemma {:induction false} CurrentStays(w: World, s: Scan, lines: seq<Line>)
    requires s.dirs != [] && forall l :: l in lines ==> !l.Include?
    ensures Read(w, s, lines).current == s.current
    decreases |lines|
  {
    if lines != [] {
      assert lines == [lines[0]] + lines[1..];
      ReadHead(w, s, lines[0], lines[1..]);
      ApplyKeeps(w, s, lines[0]);
      hide Read, Apply;
      CurrentStays(w, Apply(w, s, lines[0]), lines[1..]);
    }
  }

  lemma ApplyKeeps(w: World, s: Scan, line: Line)
    ensures Apply(w, s, line).current == s.current && Apply(w, s, line).dirs == s.dirs
  {
  }

  /** A `#pragma once` that counts bans the file that was looked for last. After an include that is never the
      file it stands in unless that is what the include found: it is the included file when that includes
      nothing itself, and otherwise whatever was looked for last while reading it. */
  lemma OnceBansTheIncluded(w: World, s: Scan, what: string, target: Target, b: File)
    requires s.dirs != [] && |s.dirs| < RECURSION_LIMIT && Active(s.state) && w.target(what, s.defs) == Some(target)
    requires target.quoted && !IsMoc(target.name) && Some(b) !in s.bans && w.read(b).Lines?
    requires Found(w, [s.dirs[|s.dirs| - 1]] + w.nodepaths, target.name) == Some(b)
    ensures
      var u := Step(w, s, Include(what, false));
      && u.scan.dirs != []
      && var v := Read(w, u.scan, w.read(b).lines);
      && Read(w, s, [Include(what, false), Pragma(true)]).bans
           == (if Active(v.state) then v.bans + {v.current} else v.bans)
      && ((forall l :: l in w.read(b).lines ==> !l.Include?) ==> v.current == Some(b))
  {
    var u := Step(w, s, Include(what, false));
    Entered(w, s, what, false, target, b);
    ReadInclude(w, s, Include(what, false), [Pragma(true)]);
    assert [Include(what, false)] + [Pragma(true)] == [Include(what, false), Pragma(true)];
    var v := Read(w, u.scan, w.read(b).lines);
    hide Step, Read, Found, IsMoc, Close, Judge, Opens, StartsArm, Active;
    CloseHas(u.scan, v);
    ReadHead(w, Close(v), Pragma(true), []);
    assert [Pragma(true)] + [] == [Pragma(true)];
    NothingRead(w, Apply(w, Close(v), Pragma(true)));
    OnceApplies(w, Close(v));
    hide Apply;
    if forall l :: l in w.read(b).lines ==> !l.Include? {
      CurrentStays(w, u.scan, w.read(b).lines);
    }
  }

  lemma OnceApplies(w: World, s: Scan)
    ensures Apply(w, s, Pragma(true)).bans == if Active(s.state) then s.bans + {s.current} else s.bans
  {
  }

  lemma CloseHas(s: Scan, v: Scan)
    requires s.dirs != [] && |s.dirs| > 1 && s.dirs <= v.dirs
    ensures Close(v).dirs != [] && Close(v).state == v.state && Close(v).bans == v.bans && Close(v).current == v.current
  {
  }

  /** After a file that cannot be read, names are looked up from that file's directory. */
  lemma UnreadableMovesOn(w: World, s: Scan, what: string, target: Target, b: File, once: bool)
    requires s.dirs != [] && s.state == [] && w.target(what, s.defs) == Some(target)
    requires target.quoted && !IsMoc(target.name) && Some(b) !in s.bans && w.read(b).Unreadable?
    requires Found(w, [s.dirs[|s.dirs| - 1]] + w.nodepaths, target.name) == Some(b)
    ensures Read(w, s, [Include(what, once)]) == s.(nodes := s.nodes + [b], dirs := s.dirs + [w.parent(b)])
  {
    ReadInclude(w, s, Include(what, once), []);
    assert [Include(what, once)] + [] == [Include(what, once)];
    NothingRead(w, Step(w, s, Include(what, once)).scan);
  }
}
