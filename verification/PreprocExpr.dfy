/** The evaluator of preprocessor conditions: it rewrites a list of tokens until one number is left. */
module PreprocExpr {
  import opened Basics

  datatype Operator =
    | LPar | RPar | Comma | Question | Colon | Not | Compl
    | Mul | Div | Mod | Plus | Minus | Shl | Shr | Lt | Le | Ge | Gt | Eq | Ne | BitAnd | BitOr | BitXor | AndAnd | OrOr
    | Odd(text: string)

  datatype Token = Num(value: int) | Ident | Op(op: Operator) | Other

  datatype Result<+T> = Ok(value: T) | Err

  /** The table `prec`; the lower the level, the tighter the operator. */
  function Level(o: Operator): Option<nat> {
    match o
    case Mul | Div | Mod => Some(0)
    case Plus | Minus => Some(1)
    case Shl | Shr => Some(2)
    case Lt | Le | Ge | Gt => Some(3)
    case Eq | Ne => Some(4)
    case BitAnd | BitOr | BitXor => Some(5)
    case AndAnd | OrOr => Some(6)
    case Comma => Some(7)
    case _ => None
  }

  /** What an operator makes of two numbers; `None` when it raises. */
  type Calc = (Operator, int, int) -> Option<int>

  /** `bits` gives the bitwise operators and the spelled-out ones. Division and remainder round down. */
  function ReduceNums(bits: Calc): Calc {
    (o: Operator, a: int, b: int) =>
      match o
      case Mod => if b == 0 then None else Some(a - b * Floor(a, b))
      case Div => if b == 0 then None else Some(Floor(a, b))
      case Mul => Some(a * b)
      case Plus => Some(a + b)
      case Minus => Some(a - b)
      case Eq => Some(if a == b then 1 else 0)
      case Ne => Some(if a != b then 1 else 0)
      case Lt => Some(if a < b then 1 else 0)
      case Le => Some(if a <= b then 1 else 0)
      case Gt => Some(if a > b then 1 else 0)
      case Ge => Some(if a >= b then 1 else 0)
      case OrOr => Some(if a != 0 then a else b)
      case AndAnd => Some(if a != 0 then b else a)
      case _ => bits(o, a, b)
  }

  function Floor(a: int, b: int): int
    requires b != 0
  {
    if b > 0 then a / b else (-a) / (-b)
  }

  // --- parentheses

  /** The end of the group that is `depth` deep at `i`. */
  function FindClose(lst: seq<Token>, i: nat, depth: int): (r: Option<nat>)
    requires i <= |lst|
    ensures r.Some? ==> i <= r.value < |lst| && lst[r.value] == Op(RPar)
    decreases |lst| - i
  {
    if i == |lst| then None
    else if lst[i] == Op(RPar) then if depth == 1 then Some(i) else FindClose(lst, i + 1, depth - 1)
    else if lst[i] == Op(LPar) then FindClose(lst, i + 1, depth + 1)
    else FindClose(lst, i + 1, depth)
  }

  /** The first colon outside all parentheses. */
  function FindColon(lst: seq<Token>, i: nat, depth: int): (r: Option<nat>)
    requires i <= |lst|
    ensures r.Some? ==> i <= r.value < |lst| && lst[r.value] == Op(Colon)
    decreases |lst| - i
  {
    if i == |lst| then None
    else if lst[i] == Op(RPar) then FindColon(lst, i + 1, depth - 1)
    else if lst[i] == Op(LPar) then FindColon(lst, i + 1, depth + 1)
    else if lst[i] == Op(Colon) && depth == 0 then Some(i)
    else FindColon(lst, i + 1, depth)
  }

  ghost function Opening(t: Token): int {
    if t == Op(LPar) then 1 else if t == Op(RPar) then -1 else 0
  }

  /** How many parentheses are open at the end: those opened less those closed. */
  ghost function Depth(lst: seq<Token>): int {
    if lst == [] then 0 else Depth(lst[..|lst| - 1]) + Opening(lst[|lst| - 1])
  }

  lemma DepthNext(lst: seq<Token>, i: nat)
    requires i < |lst|
    ensures Depth(lst[..i + 1]) == Depth(lst[..i]) + Opening(lst[i])
  {
    assert lst[..i + 1][..i] == lst[..i];
  }

  /** At `i` the parenthesis that opens the list is closed, for the first time. */
  ghost predicate Closes(lst: seq<Token>, i: nat) {
    i < |lst| && Depth(lst[..i + 1]) == 0 && forall k :: 0 < k <= i ==> Depth(lst[..k]) > 0
  }

  /** At `i` there is a colon outside all parentheses. */
  ghost predicate FreeColon(lst: seq<Token>, i: nat) {
    i < |lst| && lst[i] == Op(Colon) && Depth(lst[..i]) == 0
  }

  lemma {:induction false} FindCloseIs(lst: seq<Token>, i: nat)
    requires 0 < i <= |lst| && forall k :: 0 < k <= i ==> Depth(lst[..k]) > 0
    ensures
      var r := FindClose(lst, i, Depth(lst[..i]));
      && (r.Some? ==> Closes(lst, r.value))
      && (r.None? ==> forall k :: 0 < k <= |lst| ==> Depth(lst[..k]) > 0)
    decreases |lst| - i
  {
    if i < |lst| {
      DepthNext(lst, i);
      hide Depth;
      if Depth(lst[..i + 1]) > 0 {
        FindCloseIs(lst, i + 1);
      }
    }
  }

  lemma ClosesOnce(lst: seq<Token>, r: Option<nat>)
    requires r.Some? ==> Closes(lst, r.value)
    requires r.None? ==> forall k :: 0 < k <= |lst| ==> Depth(lst[..k]) > 0
    ensures forall i: nat :: r == Some(i) <==> Closes(lst, i)
  {
    forall i: nat | Closes(lst, i)
      ensures r == Some(i)
    {
      if r.Some? {
        assert !(i < r.value) && !(r.value < i);
      }
    }
  }

  lemma {:induction false} FindColonIs(lst: seq<Token>, i: nat)
    requires i <= |lst| && forall k :: 0 <= k < i ==> !FreeColon(lst, k)
    ensures
      var r := FindColon(lst, i, Depth(lst[..i]));
      && (r.Some? ==> FreeColon(lst, r.value) && forall k :: 0 <= k < r.value ==> !FreeColon(lst, k))
      && (r.None? ==> forall k :: 0 <= k < |lst| ==> !FreeColon(lst, k))
    decreases |lst| - i
  {
    if i < |lst| {
      DepthNext(lst, i);
      if !FreeColon(lst, i) {
        FindColonIs(lst, i + 1);
      }
    }
  }

  lemma DepthFirst(lst: seq<Token>)
    requires lst != []
    ensures Depth(lst[..0]) == 0
    ensures Depth(lst[..1]) == Opening(lst[0])
  {
    DepthNext(lst, 0);
  }

  /** The parenthesis that closes the group `lst` starts with, if there is one. */
  method CloseOf(lst: seq<Token>) returns (r: Option<nat>)
    requires lst != [] && lst[0] == Op(LPar)
    ensures r == FindClose(lst, 1, 1)
    ensures forall i: nat :: r == Some(i) <==> Closes(lst, i)
  {
    DepthFirst(lst);
    FindCloseIs(lst, 1);
    ClosesOnce(lst, FindClose(lst, 1, 1));
    var countPar, i := 1, 1;
    while i < |lst|
      invariant 1 <= i <= |lst| && FindClose(lst, 1, 1) == FindClose(lst, i, countPar)
    {
      if lst[i] == Op(RPar) {
        countPar := countPar - 1;
        if countPar == 0 {
          return Some(i);
        }
      } else if lst[i] == Op(LPar) {
        countPar := countPar + 1;
      }
      i := i + 1;
    }
    return None;
  }

  /** The first colon outside all parentheses, if there is one. */
  method ColonOf(lst: seq<Token>) returns (r: Option<nat>)
    requires lst != [] && lst[0] == Op(Question)
    ensures r == FindColon(lst, 1, 0)
    ensures forall i: nat :: r == Some(i) <==> FreeColon(lst, i) && forall k :: 0 <= k < i ==> !FreeColon(lst, k)
  {
    DepthFirst(lst);
    FindColonIs(lst, 1);
    var countPar, i := 0, 1;
    while i < |lst|
      invariant 1 <= i <= |lst| && FindColon(lst, 1, 0) == FindColon(lst, i, countPar)
    {
      if lst[i] == Op(RPar) {
        countPar := countPar - 1;
      } else if lst[i] == Op(LPar) {
        countPar := countPar + 1;
      } else if lst[i] == Op(Colon) && countPar == 0 {
        return Some(i);
      }
      i := i + 1;
    }
    return None;
  }

  // --- what the code computes

  datatype Operand = Operand(value: int, rest: seq<Token>)

  /** `get_num`: one operand off the front. */
  function GetNum(apply: Calc, lst: seq<Token>): (r: Result<Operand>)
    ensures r.Ok? ==> |r.value.rest| < |lst|
    decreases |lst|, 0
  {
    if lst == [] then Err
    else
      match lst[0]
      case Num(v) => Ok(Operand(v, lst[1..]))
      case Ident => Ok(Operand(0, lst[1..]))
      case Other => Err
      case Op(o) =>
        match o
        case LPar =>
          var i := FindClose(lst, 1, 1);
          if i.None? then Err
          else
            var v := GetTerm(apply, lst[1..i.value]);
            if v.Err? then Err else Ok(Operand(v.value, lst[i.value + 1..]))
        case Plus => GetNum(apply, lst[1..])
        case Minus => Negated(apply, GetNum(apply, lst[1..]))
        case Not => var r := GetNum(apply, lst[1..]);
          if r.Err? then Err else Ok(r.value.(value := if r.value.value == 0 then 1 else 0))
        case Compl => var r := GetNum(apply, lst[1..]);
          if r.Err? then Err else Ok(r.value.(value := -r.value.value - 1))
        case _ => Err
  }

  function Negated(apply: Calc, r: Result<Operand>): (n: Result<Operand>)
    ensures n.Ok? ==> r.Ok? && n.value.rest == r.value.rest
  {
    if r.Err? then Err
    else
      var v := apply(Mul, -1, r.value.value);
      if v.None? then Err else Ok(r.value.(value := v.value))
  }

  /** `get_term`: the whole list down to one number. */
  function GetTerm(apply: Calc, lst: seq<Token>): Result<int>
    decreases |lst|, 1
  {
    var n := GetNum(apply, lst);
    if n.Err? then Err
    else if n.value.rest == [] then Ok(n.value.value)
    else if !n.value.rest[0].Op? then Err
    else
      var num, o, more := n.value.value, n.value.rest[0].op, n.value.rest[1..];
      match o
      case Comma => GetTerm(apply, more)
      case Question =>
        var i := FindColon(n.value.rest, 1, 0);
        if i.None? then Err
        else if num != 0 then GetTerm(apply, n.value.rest[1..i.value])
        else GetTerm(apply, n.value.rest[i.value + 1..])
      case _ => Reduce(apply, num, o, more)
  }

  /** A number, an operator and what follows: the next operator tells whether to fold them now. */
  function Reduce(apply: Calc, num: int, o: Operator, more: seq<Token>): Result<int>
    decreases |more| + 1, 0
  {
    var n2 := GetNum(apply, more);
    if n2.Err? then Err
    else if n2.value.rest == [] then Folded(apply, o, num, n2.value.value)
    else if !n2.value.rest[0].Op? then Err
    else
      var o2 := n2.value.rest[0].op;
      if Level(o2).None? || Level(o).None? then Err
      else if Level(o2).value >= Level(o).value then
        var v := apply(o, num, n2.value.value);
        if v.None? then Err else GetTerm(apply, [Num(v.value)] + n2.value.rest)
      else
        var n3 := GetNum(apply, n2.value.rest[1..]);
        if n3.Err? then Err
        else
          var v := apply(o2, n2.value.value, n3.value.value);
          if v.None? then Err else GetTerm(apply, [Num(num), Op(o), Num(v.value)] + n3.value.rest)
  }

  function Folded(apply: Calc, o: Operator, a: int, b: int): Result<int> {
    var v := apply(o, a, b);
    if v.None? then Err else Ok(v.value)
  }

  // --- what the forms of a condition mean

  lemma {:induction false} DepthBehind(x: Token, t: seq<Token>, rest: seq<Token>, k: nat)
    requires k <= |t|
    ensures Depth(([x] + t + rest)[..k + 1]) == Opening(x) + Depth(t[..k])
    decreases k
  {
    var lst := [x] + t + rest;
    if k == 0 {
      DepthFirst(lst);
    } else {
      DepthBehind(x, t, rest, k - 1);
      DepthNext(lst, k);
      DepthNext(t, k - 1);
    }
  }

  /** Every parenthesis that is opened is closed, and none is closed before it is opened. */
  ghost predicate Balanced(t: seq<Token>) {
    Depth(t) == 0 && forall k :: 0 <= k <= |t| ==> Depth(t[..k]) >= 0
  }

  /** A group in parentheses is an operand: it has the value of what is inside, whatever follows. */
  lemma Parenthesised(apply: Calc, t: seq<Token>, rest: seq<Token>)
    requires Balanced(t)
    ensures GetNum(apply, [Op(LPar)] + t + ([Op(RPar)] + rest)) ==
      (if GetTerm(apply, t).Err? then Err else Ok(Operand(GetTerm(apply, t).value, rest)))
  {
    hide GetTerm, Reduce, Level, Depth;
    var lst, i := [Op(LPar)] + t + ([Op(RPar)] + rest), |t| + 1;
    DepthFirst(lst);
    DepthNext(lst, i);
    assert t[..|t|] == t;
    forall k | 0 < k <= i
      ensures Depth(lst[..k]) == 1 + Depth(t[..k - 1])
    {
      DepthBehind(Op(LPar), t, [Op(RPar)] + rest, k - 1);
    }
    assert Closes(lst, i);
    FindCloseIs(lst, 1);
    ClosesOnce(lst, FindClose(lst, 1, 1));
    assert lst[1..i] == t && lst[i + 1..] == rest;
  }

  /** `v ? t : e` is `t` or `e`, whatever the one not chosen holds, when the colon is the first outside the
      parentheses of `t`. */
  lemma Conditional(apply: Calc, v: int, t: seq<Token>, e: seq<Token>)
    requires Depth(t) == 0 && forall k :: 0 <= k < |t| && t[k] == Op(Colon) ==> Depth(t[..k]) != 0
    ensures GetTerm(apply, [Num(v)] + ([Op(Question)] + t + ([Op(Colon)] + e)))
      == if v != 0 then GetTerm(apply, t) else GetTerm(apply, e)
  {
    var q, i := [Op(Question)] + t + ([Op(Colon)] + e), |t| + 1;
    assert t[..|t|] == t;
    forall k | 0 < k <= i
      ensures Depth(q[..k]) == Depth(t[..k - 1])
    {
      DepthBehind(Op(Question), t, [Op(Colon)] + e, k - 1);
    }
    assert FreeColon(q, i);
    forall k | 0 <= k < i
      ensures !FreeColon(q, k)
    {
      if k > 0 {
        assert q[k] == t[k - 1];
      }
    }
    DepthFirst(q);
    FindColonIs(q, 1);
    assert FindColon(q, 1, 0) == Some(i);
    assert q[1..i] == t && q[i + 1..] == e;
    ConditionalAt(apply, v, q, i);
  }

  lemma ConditionalAt(apply: Calc, v: int, q: seq<Token>, i: nat)
    requires q != [] && q[0] == Op(Question) && FindColon(q, 1, 0) == Some(i)
    ensures GetTerm(apply, [Num(v)] + q)
      == if v != 0 then GetTerm(apply, q[1..i]) else GetTerm(apply, q[i + 1..])
  {
    hide FindColon, FindClose, Level, Reduce;
    var lst := [Num(v)] + q;
    assert lst[1..] == q;
    assert GetNum(apply, lst) == Ok(Operand(v, q));
    hide GetNum;
    Chosen(apply, lst, i);
  }

  lemma Chosen(apply: Calc, lst: seq<Token>, i: nat)
    requires
      var n := GetNum(apply, lst);
      n.Ok? && n.value.rest != [] && n.value.rest[0] == Op(Question) && FindColon(n.value.rest, 1, 0) == Some(i)
    ensures
      var n := GetNum(apply, lst).value;
      GetTerm(apply, lst) == if n.value != 0 then GetTerm(apply, n.rest[1..i]) else GetTerm(apply, n.rest[i + 1..])
  {
    hide FindColon, FindClose, Level, Reduce, GetNum;
  }

  /** A comma drops what is before it. */
  lemma CommaDrops(apply: Calc, v: int, t: seq<Token>)
    ensures GetTerm(apply, [Num(v)] + ([Op(Comma)] + t)) == GetTerm(apply, t)
  {
    var q := [Op(Comma)] + t;
    assert ([Num(v)] + q)[1..] == q && q[1..] == t;
  }

  /** The value of `a o b`. */
  ghost function Of(bits: Calc, a: int, o: Operator, b: int): Result<int> {
    GetTerm(ReduceNums(bits), [Num(a)] + ([Op(o)] + [Num(b)]))
  }

  lemma OfTwo(bits: Calc, a: int, o: Operator, b: int)
    requires o != Comma && o != Question
    ensures Of(bits, a, o, b) == Folded(ReduceNums(bits), o, a, b)
  {
    hide ReduceNums;
    var apply, q := ReduceNums(bits), [Op(o)] + [Num(b)];
    assert ([Num(a)] + q)[1..] == q && q[1..] == [Num(b)] && [Num(b)][1..] == [];
    assert GetNum(apply, [Num(a)] + q) == Ok(Operand(a, q));
    assert GetNum(apply, [Num(b)]) == Ok(Operand(b, []));
    hide GetNum;
    assert GetTerm(apply, [Num(a)] + q) == Reduce(apply, a, o, q[1..]);
  }

  ghost function Truth(b: bool): Result<int> {
    Ok(if b then 1 else 0)
  }

  /** What two numbers and an operator between them come to; `&&` and `||` give one of the two numbers. */
  lemma Calculates(bits: Calc, a: int, o: Operator, b: int)
    ensures
      match o
      case Plus => Of(bits, a, o, b) == Ok(a + b)
      case Minus => Of(bits, a, o, b) == Ok(a - b)
      case Mul => Of(bits, a, o, b) == Ok(a * b)
      case Eq => Of(bits, a, o, b) == Truth(a == b)
      case Ne => Of(bits, a, o, b) == Truth(a != b)
      case Lt => Of(bits, a, o, b) == Truth(a < b)
      case Le => Of(bits, a, o, b) == Truth(a <= b)
      case Gt => Of(bits, a, o, b) == Truth(a > b)
      case Ge => Of(bits, a, o, b) == Truth(a >= b)
      case AndAnd => Of(bits, a, o, b) == Ok(if a == 0 then 0 else b)
      case OrOr => Of(bits, a, o, b) == Ok(if a == 0 then b else a)
      case _ => true
  {
    if o != Comma && o != Question {
      OfTwo(bits, a, o, b);
    }
    hide Of;
  }

  /** Division rounds down and the remainder has the sign of the divisor; by zero both are errors. */
  lemma Divides(bits: Calc, a: int, b: int)
    ensures b == 0 ==> Of(bits, a, Div, b) == Err && Of(bits, a, Mod, b) == Err
    ensures b != 0 ==>
      var q, r := Of(bits, a, Div, b), Of(bits, a, Mod, b);
      q.Ok? && r.Ok? && a == b * q.value + r.value && (0 <= r.value < b || b < r.value <= 0)
  {
    OfTwo(bits, a, Div, b);
    OfTwo(bits, a, Mod, b);
    hide Of;
    if b != 0 {
      FloorDivides(a, b);
    }
  }

  lemma FloorDivides(a: int, b: int)
    requires b != 0
    ensures var r := a - b * Floor(a, b); 0 <= r < b || b < r <= 0
  {
  }

  /** A name that is left over counts as zero; an empty condition and a token that is no operand are errors. */
  lemma NamesAreZero(apply: Calc)
    ensures GetTerm(apply, [Ident]) == Ok(0) && GetTerm(apply, [Other]) == Err && GetTerm(apply, []) == Err
  {
    assert [Ident][1..] == [];
    assert GetNum(apply, [Ident]) == Ok(Operand(0, []));
  }

  /** What an operator in front of a number comes to. */
  lemma InFront(bits: Calc, v: int)
    ensures GetTerm(ReduceNums(bits), [Op(Plus)] + [Num(v)]) == Ok(v)
    ensures GetTerm(ReduceNums(bits), [Op(Minus)] + [Num(v)]) == Ok(-v)
    ensures GetTerm(ReduceNums(bits), [Op(Not)] + [Num(v)]) == Truth(v == 0)
    ensures GetTerm(ReduceNums(bits), [Op(Compl)] + [Num(v)]) == Ok(-v - 1)
  {
    FrontNum(bits, v, Plus);
    FrontNum(bits, v, Minus);
    FrontNum(bits, v, Not);
    FrontNum(bits, v, Compl);
    hide GetNum;
  }

  lemma FrontNum(bits: Calc, v: int, o: Operator)
    ensures GetNum(ReduceNums(bits), [Op(o)] + [Num(v)]) ==
      match o
      case Plus => Ok(Operand(v, []))
      case Minus => Ok(Operand(-v, []))
      case Not => Ok(Operand(if v == 0 then 1 else 0, []))
      case Compl => Ok(Operand(-v - 1, []))
      case _ => Err
  {
    var lst := [Op(o)] + [Num(v)];
    assert lst[1..] == [Num(v)] && [Num(v)][1..] == [];
    assert GetNum(ReduceNums(bits), [Num(v)]) == Ok(Operand(v, []));
  }

  /** The operators from the tightest to the loosest, as the table of the source lists them. */
  function Row(x: nat): seq<Operator> {
    match x
    case 0 => [Mul, Div, Mod]
    case 1 => [Plus, Minus]
    case 2 => [Shl, Shr]
    case 3 => [Lt, Le, Ge, Gt]
    case 4 => [Eq, Ne]
    case 5 => [BitAnd, BitOr, BitXor]
    case 6 => [AndAnd, OrOr]
    case 7 => [Comma]
    case _ => []
  }

  lemma LevelsAsListed(o: Operator, x: nat)
    ensures Level(o) == Some(x) <==> o in Row(x)
  {
  }

  // --- what an expression means

  datatype Ast =
    | Leaf(value: int) | Group(arg: Ast) | Neg(arg: Ast) | Inv(arg: Ast) | Flip(arg: Ast)
    | Bin(op: Operator, l: Ast, r: Ast)

  function Eval(apply: Calc, a: Ast): Result<int> {
    match a
    case Leaf(v) => Ok(v)
    case Group(b) => Eval(apply, b)
    case Neg(b) => (var r := Eval(apply, b); if r.Err? then Err else Folded(apply, Mul, -1, r.value))
    case Inv(b) => (var r := Eval(apply, b); if r.Err? then Err else Ok(if r.value == 0 then 1 else 0))
    case Flip(b) => (var r := Eval(apply, b); if r.Err? then Err else Ok(-r.value - 1))
    case Bin(o, l, r) =>
      var x, y := Eval(apply, l), Eval(apply, r);
      if x.Err? || y.Err? then Err else Folded(apply, o, x.value, y.value)
  }

  /** An operator and the operand after it. */
  datatype Link = Link(op: Operator, arg: Ast)

  function Rank(o: Operator): nat {
    if Level(o).Some? then Level(o).value else 8
  }

  predicate Binary(o: Operator) {
    Rank(o) <= 6
  }

  /** The last of the loosest operators. */
  function Root(ls: seq<Link>): (k: nat)
    requires ls != []
    ensures k < |ls|
    ensures forall i :: 0 <= i < k ==> Rank(ls[i].op) <= Rank(ls[k].op)
    ensures forall i :: k < i < |ls| ==> Rank(ls[i].op) < Rank(ls[k].op)
  {
    var n := |ls| - 1;
    if n == 0 then 0
    else
      var k := Root(ls[..n]);
      if Rank(ls[n].op) >= Rank(ls[k].op) then n else k
  }

  /** By precedence, operators of one level grouping to the left. */
  function Precedence(x: Ast, ls: seq<Link>): Ast
    decreases |ls|
  {
    if ls == [] then x
    else
      var k := Root(ls);
      Bin(ls[k].op, Precedence(x, ls[..k]), Precedence(ls[k].arg, ls[k + 1..]))
  }

  /** The way `get_term` groups: it looks at two operators at a time. */
  function Fold(x: Ast, ls: seq<Link>): Ast
    decreases |ls|
  {
    if ls == [] then x
    else if |ls| == 1 then Bin(ls[0].op, x, ls[0].arg)
    else if Rank(ls[1].op) >= Rank(ls[0].op) then Fold(Bin(ls[0].op, x, ls[0].arg), ls[1..])
    else Fold(x, [Link(ls[0].op, Bin(ls[1].op, ls[0].arg, ls[1].arg))] + ls[2..])
  }

  type Build = (Ast, seq<Link>) -> Ast

  datatype Parsed = Parsed(ast: Ast, rest: seq<Token>)

  function ParseNum(build: Build, lst: seq<Token>): (r: Result<Parsed>)
    ensures r.Ok? ==> |r.value.rest| < |lst| && !r.value.ast.Bin?
    decreases |lst|, 0
  {
    if lst == [] then Err
    else
      match lst[0]
      case Num(v) => Ok(Parsed(Leaf(v), lst[1..]))
      case Ident => Ok(Parsed(Leaf(0), lst[1..]))
      case Other => Err
      case Op(o) =>
        if o == LPar then
          var i := FindClose(lst, 1, 1);
          if i.None? then Err
          else
            var a := Parse(build, lst[1..i.value]);
            if a.Err? then Err else Ok(Parsed(Group(a.value), lst[i.value + 1..]))
        else if o == Plus || o == Minus || o == Not || o == Compl then
          var r := ParseNum(build, lst[1..]);
          if r.Err? then Err else Ok(r.value.(ast := Prefixed(o, r.value.ast)))
        else Err
  }

  function Prefixed(o: Operator, a: Ast): (r: Ast)
    requires o == Plus || o == Minus || o == Not || o == Compl
  {
    match o case Plus => a case Minus => Neg(a) case Not => Inv(a) case Compl => Flip(a)
  }

  function ParseLinks(build: Build, lst: seq<Token>): (r: Result<seq<Link>>)
    ensures r.Ok? ==> (r.value == [] <==> lst == []) && forall i :: 0 <= i < |r.value| ==> !r.value[i].arg.Bin?
    decreases |lst|, 1
  {
    if lst == [] then Ok([])
    else if !lst[0].Op? || !Binary(lst[0].op) then Err
    else
      var p := ParseNum(build, lst[1..]);
      if p.Err? then Err
      else
        var ls := ParseLinks(build, p.value.rest);
        if ls.Err? then Err else Ok([Link(lst[0].op, p.value.ast)] + ls.value)
  }

  /** Operands joined by the operators of the first seven levels, each group built with `build`. */
  function Parse(build: Build, lst: seq<Token>): Result<Ast>
    decreases |lst|, 2
  {
    var p := ParseNum(build, lst);
    if p.Err? then Err
    else
      var ls := ParseLinks(build, p.value.rest);
      if ls.Err? then Err else Ok(build(p.value.ast, ls.value))
  }

  // --- get_term computes the folded tree

  lemma {:induction false} FoldSame(apply: Calc, x: Ast, y: Ast, ls: seq<Link>, ms: seq<Link>)
    requires Eval(apply, x) == Eval(apply, y) && |ls| == |ms|
    requires forall i :: 0 <= i < |ls| ==> ls[i].op == ms[i].op && Eval(apply, ls[i].arg) == Eval(apply, ms[i].arg)
    ensures Eval(apply, Fold(x, ls)) == Eval(apply, Fold(y, ms))
    decreases |ls|
  {
    if |ls| > 1 {
      if Rank(ls[1].op) >= Rank(ls[0].op) {
        FoldSame(apply, Bin(ls[0].op, x, ls[0].arg), Bin(ms[0].op, y, ms[0].arg), ls[1..], ms[1..]);
      } else {
        FoldSame(apply, x, y, [Link(ls[0].op, Bin(ls[1].op, ls[0].arg, ls[1].arg))] + ls[2..],
                 [Link(ms[0].op, Bin(ms[1].op, ms[0].arg, ms[1].arg))] + ms[2..]);
      }
    }
  }

  lemma {:induction false} FoldNeeds(apply: Calc, x: Ast, ls: seq<Link>)
    requires Eval(apply, Fold(x, ls)).Ok?
    ensures Eval(apply, x).Ok? && (ls != [] ==> Eval(apply, ls[0].arg).Ok?)
    decreases |ls|
  {
    if |ls| > 1 {
      if Rank(ls[1].op) >= Rank(ls[0].op) {
        FoldNeeds(apply, Bin(ls[0].op, x, ls[0].arg), ls[1..]);
      } else {
        FoldNeeds(apply, x, [Link(ls[0].op, Bin(ls[1].op, ls[0].arg, ls[1].arg))] + ls[2..]);
      }
    }
  }

  function Valued(apply: Calc, p: Parsed): Result<Operand> {
    var v := Eval(apply, p.ast);
    if v.Err? then Err else Ok(Operand(v.value, p.rest))
  }

  lemma {:induction false} NumIs(apply: Calc, lst: seq<Token>)
    requires ParseNum(Fold, lst).Ok?
    ensures GetNum(apply, lst) == Valued(apply, ParseNum(Fold, lst).value)
    decreases |lst|, 0
  {
    hide GetTerm, Parse, Fold, FindClose, FindColon, Level;
    if lst[0].Op? {
      var o := lst[0].op;
      if o == LPar {
        TermIs(apply, lst[1..FindClose(lst, 1, 1).value]);
      } else {
        NumIs(apply, lst[1..]);
      }
    }
  }

  lemma Renumbered(build: Build, v: int, rest: seq<Token>)
    requires ParseLinks(build, rest).Ok?
    ensures Parse(build, [Num(v)] + rest) == Ok(build(Leaf(v), ParseLinks(build, rest).value))
  {
    assert ([Num(v)] + rest)[1..] == rest;
  }

  lemma Relinked(build: Build, o: Operator, v: int, rest: seq<Token>)
    requires ParseLinks(build, rest).Ok? && Binary(o)
    ensures ParseLinks(build, [Op(o)] + ([Num(v)] + rest)) == Ok([Link(o, Leaf(v))] + ParseLinks(build, rest).value)
  {
    var end := [Num(v)] + rest;
    assert ([Op(o)] + end)[1..] == end && end[1..] == rest;
    assert ParseNum(build, end) == Ok(Parsed(Leaf(v), rest));
  }

  lemma Rejoined(a: int, o: Operator, v: int, rest: seq<Token>)
    requires ParseLinks(Fold, rest).Ok? && Binary(o)
    ensures Parse(Fold, [Num(a), Op(o), Num(v)] + rest)
      == Ok(Fold(Leaf(a), [Link(o, Leaf(v))] + ParseLinks(Fold, rest).value))
  {
    assert [Num(a), Op(o), Num(v)] + rest == [Num(a)] + ([Op(o)] + ([Num(v)] + rest));
    Relinked(Fold, o, v, rest);
    Renumbered(Fold, a, [Op(o)] + ([Num(v)] + rest));
  }

  /** `rest` is an operator, an operand and what follows. */
  lemma NextLink(apply: Calc, rest: seq<Token>)
    requires ParseLinks(Fold, rest).Ok? && rest != []
    ensures
      var ls := ParseLinks(Fold, rest).value;
      var p := ParseNum(Fold, rest[1..]);
      && rest[0].Op? && Binary(rest[0].op) && p.Ok? && ParseLinks(Fold, p.value.rest) == Ok(ls[1..])
      && ls[0] == Link(rest[0].op, p.value.ast) && GetNum(apply, rest[1..]) == Valued(apply, p.value)
      && (|ls| == 1 <==> p.value.rest == [])
    decreases |rest|, 3
  {
    NumIs(apply, rest[1..]);
  }

  /** On operands joined by binary operators `get_term` computes the folded tree. */
  lemma {:induction false} TermIs(apply: Calc, lst: seq<Token>)
    requires Parse(Fold, lst).Ok?
    ensures GetTerm(apply, lst) == Eval(apply, Parse(Fold, lst).value)
    decreases |lst|, 2
  {
    hide Fold, Level;
    var p := ParseNum(Fold, lst).value;
    var ls := ParseLinks(Fold, p.rest).value;
    NumIs(apply, lst);
    if ls == [] {
      FoldNothing(p.ast);
    } else {
      TermStep(apply, lst);
    }
  }

  lemma TermReduces(apply: Calc, lst: seq<Token>)
    ensures
      var n := GetNum(apply, lst);
      n.Ok? && n.value.rest != [] && n.value.rest[0].Op? && Binary(n.value.rest[0].op) ==>
        GetTerm(apply, lst) == Reduce(apply, n.value.value, n.value.rest[0].op, n.value.rest[1..])
    ensures GetNum(apply, lst).Err? ==> GetTerm(apply, lst) == Err
  {
  }

  /** One round of rewriting. */
  lemma {:induction false} TermStep(apply: Calc, lst: seq<Token>)
    requires Parse(Fold, lst).Ok? && ParseNum(Fold, lst).value.rest != []
    ensures GetTerm(apply, lst) == Eval(apply, Parse(Fold, lst).value)
    decreases |lst|, 1
  {
    var p := ParseNum(Fold, lst).value;
    var ls := ParseLinks(Fold, p.rest).value;
    assert Parse(Fold, lst).value == Fold(p.ast, ls);
    if |ls| == 1 && Eval(apply, p.ast).Ok? && Eval(apply, ls[0].arg).Ok? {
      FoldShort(apply, p.ast, ls);
    }
    TermReduces(apply, lst);
    hide ParseNum, ParseLinks, Parse, Fold, Eval, FindColon, Level, Rank, GetNum, GetTerm, Folded;
    NumIs(apply, lst);
    NextLink(apply, p.rest);
    Ranked(ls[0].op);
    if Eval(apply, p.ast).Err? || Eval(apply, ls[0].arg).Err? {
      if Eval(apply, Fold(p.ast, ls)).Ok? {
        FoldNeeds(apply, p.ast, ls);
      }
    } else if |ls| > 1 {
      var q := ParseNum(Fold, p.rest[1..]).value;
      NextLink(apply, q.rest);
      Ranked(ls[1].op);
      if Rank(ls[1].op) >= Rank(ls[0].op) {
        FoldsLeft(apply, p.ast, ls, q.rest);
      } else {
        FoldsRight(apply, p.ast, ls, ParseNum(Fold, q.rest[1..]).value.rest);
      }
    }
  }

  lemma Ranked(o: Operator)
    requires Binary(o)
    ensures Level(o) == Some(Rank(o)) && o != Comma && o != Question
  {
  }

  lemma FoldShort(apply: Calc, x: Ast, ls: seq<Link>)
    requires |ls| == 1 && Eval(apply, x).Ok? && Eval(apply, ls[0].arg).Ok?
    ensures Eval(apply, Fold(x, ls)) == Folded(apply, ls[0].op, Eval(apply, x).value, Eval(apply, ls[0].arg).value)
  {
  }

  lemma FoldNothing(x: Ast)
    ensures Fold(x, []) == x
  {
  }

  lemma {:induction false} FoldsLeft(apply: Calc, x: Ast, ls: seq<Link>, rest: seq<Token>)
    requires |ls| > 1 && Rank(ls[1].op) >= Rank(ls[0].op) && ParseLinks(Fold, rest) == Ok(ls[1..])
    requires Eval(apply, x).Ok? && Eval(apply, ls[0].arg).Ok?
    ensures
      var v := apply(ls[0].op, Eval(apply, x).value, Eval(apply, ls[0].arg).value);
      Eval(apply, Fold(x, ls)) == if v.None? then Err else GetTerm(apply, [Num(v.value)] + rest)
    decreases |rest| + 1, 3
  {
    var v := apply(ls[0].op, Eval(apply, x).value, Eval(apply, ls[0].arg).value);
    var y := Bin(ls[0].op, x, ls[0].arg);
    assert Fold(x, ls) == Fold(y, ls[1..]);
    if v.None? {
      if Eval(apply, Fold(y, ls[1..])).Ok? {
        FoldNeeds(apply, y, ls[1..]);
      }
    } else {
      FoldSame(apply, y, Leaf(v.value), ls[1..], ls[1..]);
      Renumbered(Fold, v.value, rest);
      TermIs(apply, [Num(v.value)] + rest);
    }
  }

  lemma {:induction false} FoldsRight(apply: Calc, x: Ast, ls: seq<Link>, rest: seq<Token>)
    requires |ls| > 1 && Rank(ls[1].op) < Rank(ls[0].op) && Binary(ls[0].op) && ParseLinks(Fold, rest) == Ok(ls[2..])
    requires Eval(apply, x).Ok? && Eval(apply, ls[0].arg).Ok?
    ensures
      var w := Eval(apply, ls[1].arg);
      var v := if w.Err? then None else apply(ls[1].op, Eval(apply, ls[0].arg).value, w.value);
      Eval(apply, Fold(x, ls)) ==
        if v.None? then Err else GetTerm(apply, [Num(Eval(apply, x).value), Op(ls[0].op), Num(v.value)] + rest)
    decreases |rest| + 3, 3
  {
    var w := Eval(apply, ls[1].arg);
    var v := if w.Err? then None else apply(ls[1].op, Eval(apply, ls[0].arg).value, w.value);
    var y := Bin(ls[1].op, ls[0].arg, ls[1].arg);
    var ms := [Link(ls[0].op, y)] + ls[2..];
    assert Fold(x, ls) == Fold(x, ms);
    if v.None? {
      if Eval(apply, Fold(x, ms)).Ok? {
        FoldNeeds(apply, x, ms);
      }
    } else {
      var a := Eval(apply, x).value;
      FoldSame(apply, x, Leaf(a), ms, [Link(ls[0].op, Leaf(v.value))] + ls[2..]);
      Rejoined(a, ls[0].op, v.value, rest);
      TermIs(apply, [Num(a), Op(ls[0].op), Num(v.value)] + rest);
    }
  }

  // --- when folding groups by precedence

  function Top(a: Ast): int {
    if a.Bin? then Rank(a.op) else -1
  }

  /** Looser operators above tighter ones, one level grouping to the left. */
  ghost predicate Shaped(a: Ast) {
    a.Bin? ==> Top(a.l) <= Rank(a.op) && Top(a.r) < Rank(a.op) && Shaped(a.l) && Shaped(a.r)
  }

  /** The first operand of a tree and the others, each after its operator. */
  ghost function First(a: Ast): (x: Ast)
    ensures !x.Bin?
  {
    if a.Bin? then First(a.l) else a
  }

  ghost function Others(a: Ast): seq<Link> {
    if a.Bin? then Others(a.l) + ([Link(a.op, First(a.r))] + Others(a.r)) else []
  }

  ghost predicate Atoms(ls: seq<Link>) {
    forall i :: 0 <= i < |ls| ==> !ls[i].arg.Bin?
  }

  lemma {:induction false} PrecedenceShaped(x: Ast, ls: seq<Link>)
    requires !x.Bin? && Atoms(ls)
    ensures Shaped(Precedence(x, ls)) && First(Precedence(x, ls)) == x && Others(Precedence(x, ls)) == ls
    ensures ls != [] ==> Top(Precedence(x, ls)) == Rank(ls[Root(ls)].op)
    ensures ls == [] ==> Precedence(x, ls) == x
    decreases |ls|
  {
    if ls == [] {
      PrecedenceOfNone(x);
    } else {
      PrecedenceAt(x, ls);
      RootBinIs(x, ls, Root(ls));
    }
    hide *;
    if ls == [] {
      AtomIs(x);
    } else {
      var k := Root(ls);
      PartsLower(ls);
      PrecedenceShaped(x, ls[..k]);
      PrecedenceShaped(ls[k].arg, ls[k + 1..]);
      AtomIs(x);
      AtomIs(ls[k].arg);
      BinShaped(ls[k].op, Precedence(x, ls[..k]), Precedence(ls[k].arg, ls[k + 1..]));
      Rejoin(ls, k);
    }
  }

  lemma PrecedenceAt(x: Ast, ls: seq<Link>)
    requires ls != []
    ensures Precedence(x, ls) == RootBin(x, ls, Root(ls))
  {
    hide Root, Rank, Level;
  }

  /** The tree with the operator at `k` as its root. */
  ghost function RootBin(x: Ast, ls: seq<Link>, k: nat): Ast
    requires k < |ls|
  {
    Bin(ls[k].op, Precedence(x, ls[..k]), Precedence(ls[k].arg, ls[k + 1..]))
  }

  lemma RootBinIs(x: Ast, ls: seq<Link>, k: nat)
    requires k < |ls|
    ensures RootBin(x, ls, k) == Bin(ls[k].op, Precedence(x, ls[..k]), Precedence(ls[k].arg, ls[k + 1..]))
  {
    hide Precedence, Rank;
  }

  lemma AtomIs(x: Ast)
    ensures !x.Bin? ==> Shaped(x) && First(x) == x && Others(x) == [] && Top(x) == -1
  {
  }

  lemma BinShaped(o: Operator, l: Ast, r: Ast)
    requires Shaped(l) && Shaped(r) && Top(l) <= Rank(o) && Top(r) < Rank(o)
    ensures Shaped(Bin(o, l, r)) && Top(Bin(o, l, r)) == Rank(o) && First(Bin(o, l, r)) == First(l)
    ensures Others(Bin(o, l, r)) == Others(l) + ([Link(o, First(r))] + Others(r))
  {
  }

  /** No operator to the left of the root is looser, and all to the right are tighter. */
  lemma PartsLower(ls: seq<Link>)
    requires ls != [] && Atoms(ls)
    ensures var k := Root(ls); Atoms(ls[..k]) && Atoms(ls[k + 1..]) && !ls[k].arg.Bin?
    ensures var k := Root(ls); k > 0 ==> Rank(ls[..k][Root(ls[..k])].op) <= Rank(ls[k].op)
    ensures var k := Root(ls); k + 1 < |ls| ==> Rank(ls[k + 1..][Root(ls[k + 1..])].op) < Rank(ls[k].op)
    ensures Rank(ls[Root(ls)].op) >= 0
  {
    var k := Root(ls);
    AtomParts(ls, k);
    hide Rank, Atoms, Root;
    if k > 0 {
      var i := Root(ls[..k]);
      assert ls[..k][i] == ls[i];
    }
    if k + 1 < |ls| {
      var i := Root(ls[k + 1..]);
      assert ls[k + 1..][i] == ls[k + 1 + i];
    }
  }

  lemma AtomParts(ls: seq<Link>, k: nat)
    requires k < |ls| && Atoms(ls)
    ensures Atoms(ls[..k]) && Atoms(ls[k + 1..]) && !ls[k].arg.Bin?
  {
  }

  lemma Rejoin(ls: seq<Link>, k: nat)
    requires k < |ls|
    ensures ls == ls[..k] + ([Link(ls[k].op, ls[k].arg)] + ls[k + 1..])
  {
  }

  lemma {:induction false} ShapedRanks(a: Ast)
    requires Shaped(a)
    ensures forall i :: 0 <= i < |Others(a)| ==> Rank(Others(a)[i].op) <= Top(a)
    ensures Atoms(Others(a))
    ensures a.Bin? <==> Others(a) != []
  {
    if a.Bin? {
      ShapedRanks(a.l);
      ShapedRanks(a.r);
    }
  }

  lemma PrecedenceSplits(x: Ast, left: seq<Link>, link: Link, right: seq<Link>)
    requires forall i :: 0 <= i < |left| ==> Rank(left[i].op) <= Rank(link.op)
    requires forall i :: 0 <= i < |right| ==> Rank(right[i].op) < Rank(link.op)
    ensures Precedence(x, left + ([link] + right)) == Bin(link.op, Precedence(x, left), Precedence(link.arg, right))
  {
    hide Rank, Root, Precedence;
    var ls, k := left + ([link] + right), |left|;
    Middle(left, link, right);
    RootIs(ls, k);
    PrecedenceAt(x, ls);
    RootBinIs(x, ls, k);
  }

  lemma Middle<T>(left: seq<T>, x: T, right: seq<T>)
    ensures var q, k := left + ([x] + right), |left|; q[k] == x && q[..k] == left && q[k + 1..] == right
    ensures var q, k := left + ([x] + right), |left|; forall i :: 0 <= i < k ==> q[i] == left[i]
    ensures var q, k := left + ([x] + right), |left|; forall i :: k < i < |q| ==> q[i] == right[i - k - 1]
  {
  }

  /** A well-shaped tree is the one precedence gives its operands and operators. */
  lemma {:induction false} ShapedIsPrecedence(a: Ast)
    requires Shaped(a)
    ensures a == Precedence(First(a), Others(a))
  {
    hide Rank, Precedence;
    if a.Bin? {
      ShapedRanks(a.l);
      ShapedRanks(a.r);
      ShapedIsPrecedence(a.l);
      ShapedIsPrecedence(a.r);
      PrecedenceSplits(First(a.l), Others(a.l), Link(a.op, First(a.r)), Others(a.r));
    } else {
      PrecedenceOfNone(a);
    }
  }

  lemma PrecedenceOfNone(a: Ast)
    ensures Precedence(a, []) == a
  {
  }

  lemma RootIs(ls: seq<Link>, k: nat)
    requires k < |ls|
    requires forall i :: 0 <= i < k ==> Rank(ls[i].op) <= Rank(ls[k].op)
    requires forall i :: k < i < |ls| ==> Rank(ls[i].op) < Rank(ls[k].op)
    ensures Root(ls) == k
  {
    var r := Root(ls);
    assert Rank(ls[k].op) >= 0 && Rank(ls[r].op) >= 0;
  }

  ghost function Spelled(ls: seq<Link>): seq<Link> {
    if ls == [] then [] else [Link(ls[0].op, First(ls[0].arg))] + Others(ls[0].arg) + Spelled(ls[1..])
  }

  lemma SpelledCons(l: Link, rest: seq<Link>)
    ensures Spelled([l] + rest) == [Link(l.op, First(l.arg))] + (Others(l.arg) + Spelled(rest))
  {
    assert ([l] + rest)[1..] == rest;
  }

  lemma Assoc<T>(a: seq<T>, b: seq<T>, c: seq<T>)
    ensures a + b + c == a + (b + c)
  {
  }

  /** Folding keeps the operands and operators in order. */
  lemma {:induction false} FoldSpells(x: Ast, ls: seq<Link>)
    ensures First(Fold(x, ls)) == First(x) && Others(Fold(x, ls)) == Others(x) + Spelled(ls)
    decreases |ls|
  {
    hide Rank;
    if |ls| > 0 {
      var l, rest := ls[0], ls[1..];
      assert ls == [l] + rest;
      var y := Bin(l.op, x, l.arg);
      if |ls| == 1 || Rank(ls[1].op) >= Rank(ls[0].op) {
        FoldSpells(y, rest);
        FoldsOn(x, l, rest);
        SpelledCons(l, rest);
        hide First, Others, Spelled, Fold;
        Assoc(Others(x), [Link(l.op, First(l.arg))] + Others(l.arg), Spelled(rest));
        Assoc([Link(l.op, First(l.arg))], Others(l.arg), Spelled(rest));
        OthersOf(y);
      } else {
        var z := Bin(ls[1].op, l.arg, ls[1].arg);
        var m := Link(l.op, z);
        assert ls[1..] == [ls[1]] + ls[2..];
        FoldSpells(x, [m] + ls[2..]);
        SpelledCons(l, rest);
        SpelledCons(ls[1], ls[2..]);
        SpelledCons(m, ls[2..]);
        hide First, Others, Spelled, Fold;
        OthersOf(z);
        Assoc(Others(l.arg), [Link(ls[1].op, First(ls[1].arg))] + Others(ls[1].arg), Spelled(ls[2..]));
        Assoc([Link(ls[1].op, First(ls[1].arg))], Others(ls[1].arg), Spelled(ls[2..]));
      }
    }
  }

  lemma FoldsOn(x: Ast, l: Link, rest: seq<Link>)
    requires rest == [] || Rank(rest[0].op) >= Rank(l.op)
    ensures Fold(x, [l] + rest) == Fold(Bin(l.op, x, l.arg), rest)
  {
    assert ([l] + rest)[1..] == rest;
  }

  lemma OthersOf(a: Ast)
    requires a.Bin?
    ensures First(a) == First(a.l) && Others(a) == Others(a.l) + ([Link(a.op, First(a.r))] + Others(a.r))
  {
  }

  lemma {:induction false} AtomsSpelled(ls: seq<Link>)
    requires Atoms(ls)
    ensures Spelled(ls) == ls
  {
    if ls != [] {
      AtomsSpelled(ls[1..]);
    }
  }

  /** A part that is out of shape stays so. */
  lemma {:induction false} FoldKeepsFlaws(x: Ast, ls: seq<Link>)
    requires ls != [] && !(Shaped(x) && Top(x) <= Rank(ls[0].op) && Shaped(ls[0].arg)
                           && Top(ls[0].arg) < Rank(ls[0].op))
    ensures !Shaped(Fold(x, ls))
    decreases |ls|
  {
    if |ls| > 1 {
      if Rank(ls[1].op) >= Rank(ls[0].op) {
        FoldKeepsFlaws(Bin(ls[0].op, x, ls[0].arg), ls[1..]);
      } else {
        FoldKeepsFlaws(x, [Link(ls[0].op, Bin(ls[1].op, ls[0].arg, ls[1].arg))] + ls[2..]);
      }
    }
  }

  /** `head` is the level of the operator held back, `last` that of the one before, or -1 just after `head`. */
  ghost predicate Tame(head: nat, last: int, ls: seq<Link>)
    decreases |ls|
  {
    ls == [] ||
      var r := Rank(ls[0].op);
      if r >= head then Tame(r, -1, ls[1..]) else last <= r && Tame(head, r, ls[1..])
  }

  lemma {:induction false} FoldShaped(x: Ast, ls: seq<Link>)
    requires ls != [] && Atoms(ls[1..])
    requires Shaped(x) && Top(x) <= Rank(ls[0].op) && Shaped(ls[0].arg) && Top(ls[0].arg) < Rank(ls[0].op)
    ensures Shaped(Fold(x, ls)) <==> Tame(Rank(ls[0].op), Top(ls[0].arg), ls[1..])
    decreases |ls|
  {
    if |ls| > 1 {
      assert !ls[1..][0].arg.Bin?;
      if Rank(ls[1].op) >= Rank(ls[0].op) {
        FoldShaped(Bin(ls[0].op, x, ls[0].arg), ls[1..]);
      } else {
        var ms := [Link(ls[0].op, Bin(ls[1].op, ls[0].arg, ls[1].arg))] + ls[2..];
        assert ms[1..] == ls[2..] && ls[1..][1..] == ls[2..];
        if Top(ls[0].arg) <= Rank(ls[1].op) {
          FoldShaped(x, ms);
        } else {
          FoldKeepsFlaws(x, ms);
        }
      }
    }
  }

  // --- the condition on the operators alone

  ghost function Ranks(ls: seq<Link>): (r: seq<nat>)
    ensures |r| == |ls| && forall i :: 0 <= i < |r| ==> r[i] == Rank(ls[i].op)
  {
    seq(|ls|, i requires 0 <= i < |ls| => Rank(ls[i].op))
  }

  /** An operator that a looser one precedes is followed by a tighter one. */
  ghost predicate Drops(q: seq<nat>, j: int, i: int) {
    0 <= j < i && i + 1 < |q| && q[j] > q[i] > q[i + 1]
  }

  ghost predicate Orderly(q: seq<nat>) {
    forall j, i :: !Drops(q, j, i)
  }

  lemma OrderlyDropsHead(h: nat, last: int, r: nat, q: seq<nat>)
    requires r >= h > last
    ensures Orderly((if last < 0 then [h] else [h, last]) + ([r] + q)) <==> Orderly([r] + q)
  {
    var n := if last < 0 then 1 else 2;
    var a, b := (if last < 0 then [h] else [h, last]) + ([r] + q), [r] + q;
    forall j, i
      ensures Drops(b, j, i) ==> Drops(a, j + n, i + n)
    {
    }
    forall j, i | Drops(a, j, i)
      ensures exists k, l :: Drops(b, k, l)
    {
      assert i >= n;
      assert a[i] == b[i - n] && a[i + 1] == b[i + 1 - n];
      if j >= n {
        assert Drops(b, j - n, i - n);
      } else {
        assert a[j] <= h;
        assert Drops(b, 0, i - n);
      }
    }
    if !Orderly(b) {
      var j, i :| Drops(b, j, i);
      assert Drops(a, j + n, i + n);
    }
    if !Orderly(a) {
      var j, i :| Drops(a, j, i);
      var k, l :| Drops(b, k, l);
    }
  }

  lemma OrderlyDropsLast(h: nat, last: int, r: nat, q: seq<nat>)
    requires r < h && 0 <= last < h
    ensures Orderly([h, last] + ([r] + q)) <==> last <= r && Orderly([h, r] + q)
  {
    var a, b := [h, last] + ([r] + q), [h, r] + q;
    if last > r {
      assert Drops(a, 0, 1);
    }
    if !Orderly(b) {
      var j, i :| Drops(b, j, i);
      assert Drops(a, if j == 0 then 0 else j + 1, i + 1);
    }
    if !Orderly(a) && last <= r {
      var j, i :| Drops(a, j, i);
      assert i >= 2;
      assert Drops(b, if j <= 1 then 0 else j - 1, i - 1);
    }
  }

  lemma ShortOrderly(h: nat, last: int)
    requires -1 <= last < h
    ensures Orderly((if last < 0 then [h] else [h, last]) + [])
  {
  }

  lemma {:induction false} TameIsOrderly(h: nat, last: int, ls: seq<Link>)
    requires -1 <= last < h
    ensures Tame(h, last, ls) <==> Orderly((if last < 0 then [h] else [h, last]) + Ranks(ls))
    decreases |ls|
  {
    hide Orderly, Rank, Level;
    if ls == [] {
      ShortOrderly(h, last);
    } else {
      var r, q := Rank(ls[0].op), Ranks(ls[1..]);
      RanksCons(ls);
      if r >= h {
        OrderlyDropsHead(h, last, r, q);
        TameIsOrderly(r, -1, ls[1..]);
      } else {
        TameIsOrderly(h, r, ls[1..]);
        if last < 0 {
          assert [h] + ([r] + q) == [h, r] + q;
        } else {
          OrderlyDropsLast(h, last, r, q);
        }
      }
    }
  }

  /** `get_term` groups a chain of operators by precedence exactly when no operator with a looser one
      somewhere before it is directly followed by a tighter one. */
  lemma FoldIsPrecedence(x: Ast, ls: seq<Link>)
    requires !x.Bin? && Atoms(ls)
    ensures Fold(x, ls) == Precedence(x, ls) <==> Orderly(Ranks(ls))
  {
    hide *;
    if ls == [] {
      FoldNothing(x);
      PrecedenceOfNone(x);
      NothingDrops(Ranks(ls));
    } else {
      FoldIsShaped(x, ls);
      FoldSpells(x, ls);
      AtomsSpelled(ls);
      AtomFacts(x, ls);
      PrecedenceShaped(x, ls);
      if Shaped(Fold(x, ls)) {
        ShapedIsPrecedence(Fold(x, ls));
      }
    }
  }

  lemma NothingDrops(q: seq<nat>)
    requires q == []
    ensures Orderly(q)
  {
  }

  lemma FoldIsShaped(x: Ast, ls: seq<Link>)
    requires !x.Bin? && Atoms(ls) && ls != []
    ensures Shaped(Fold(x, ls)) <==> Orderly(Ranks(ls))
  {
    hide *;
    AtomFacts(x, ls);
    FoldShaped(x, ls);
    TameIsOrderly(Rank(ls[0].op), -1, ls[1..]);
  }

  lemma AtomFacts(x: Ast, ls: seq<Link>)
    requires !x.Bin? && Atoms(ls) && ls != []
    ensures First(x) == x && Others(x) + ls == ls && Shaped(x) && Shaped(ls[0].arg) && Atoms(ls[1..])
    ensures Top(x) == -1 && Top(ls[0].arg) == -1
    ensures [Rank(ls[0].op)] + Ranks(ls[1..]) == Ranks(ls)
  {
    hide Rank, Ranks, Level;
    RanksCons(ls);
    assert [] + ls == ls;
  }

  lemma RanksCons(ls: seq<Link>)
    requires ls != []
    ensures [Rank(ls[0].op)] + Ranks(ls[1..]) == Ranks(ls)
  {
    hide Rank;
  }

  /** Two levels never go wrong. */
  lemma TwoLevelsOrderly(q: seq<nat>, a: nat, b: nat)
    requires forall i :: 0 <= i < |q| ==> q[i] == a || q[i] == b
    ensures Orderly(q)
  {
    forall j, i
      ensures !Drops(q, j, i)
    {
      if 0 <= j < i && i + 1 < |q| {
        assert (q[j] == a || q[j] == b) && (q[i] == a || q[i] == b) && (q[i + 1] == a || q[i + 1] == b);
      }
    }
  }

  ghost predicate TwoLevels(q: seq<nat>) {
    exists a, b :: OnlyLevels(q, a, b)
  }

  ghost predicate OnlyLevels(q: seq<nat>, a: nat, b: nat) {
    forall i :: 0 <= i < |q| ==> q[i] == a || q[i] == b
  }

  // --- conditions as a whole

  /** Every group of the condition, at any depth, has its operators in order. */
  ghost predicate Fine(lst: seq<Token>)
    decreases |lst|, 2
  {
    var p := ParseNum(Precedence, lst);
    FineNum(lst) && (p.Ok? ==> FineLinks(p.value.rest) && OrderlyLinks(ParseLinks(Precedence, p.value.rest)))
  }

  ghost predicate OrderlyLinks(ls: Result<seq<Link>>) {
    ls.Ok? ==> Orderly(Ranks(ls.value))
  }

  ghost predicate FineNum(lst: seq<Token>)
    decreases |lst|, 0
  {
    lst != [] && lst[0].Op? ==>
      if lst[0].op == LPar then
        var i := FindClose(lst, 1, 1);
        i.Some? ==> Fine(lst[1..i.value])
      else FineNum(lst[1..])
  }

  ghost predicate FineLinks(lst: seq<Token>)
    decreases |lst|, 1
  {
    lst != [] ==>
      FineNum(lst[1..]) && (var p := ParseNum(Precedence, lst[1..]); p.Ok? ==> FineLinks(p.value.rest))
  }

  lemma {:induction false} SameNum(lst: seq<Token>)
    requires FineNum(lst)
    ensures ParseNum(Fold, lst) == ParseNum(Precedence, lst)
    decreases |lst|, 0
  {
    if lst != [] && lst[0].Op? {
      if lst[0].op == LPar {
        var i := FindClose(lst, 1, 1);
        if i.Some? {
          SameTree(lst[1..i.value]);
        }
      } else {
        SameNum(lst[1..]);
      }
    }
  }

  lemma {:induction false} SameLinks(lst: seq<Token>)
    requires FineLinks(lst)
    ensures ParseLinks(Fold, lst) == ParseLinks(Precedence, lst)
    decreases |lst|, 1
  {
    if lst != [] && lst[0].Op? && Binary(lst[0].op) {
      SameNum(lst[1..]);
      var p := ParseNum(Precedence, lst[1..]);
      if p.Ok? {
        SameLinks(p.value.rest);
      }
    }
  }

  lemma {:induction false} SameTree(lst: seq<Token>)
    requires Fine(lst)
    ensures Parse(Fold, lst) == Parse(Precedence, lst)
    decreases |lst|, 2
  {
    var p := ParseNum(Precedence, lst);
    SameNum(lst);
    if p.Ok? {
      SameLinks(p.value.rest);
      var ls := ParseLinks(Precedence, p.value.rest);
      if ls.Ok? {
        FoldIsPrecedence(p.value.ast, ls.value);
      }
    }
  }

  /** A condition made of operands and binary operators whose groups are all in order has the value its
      precedence tree has, and raises when that does. */
  lemma ConditionIsPrecedence(apply: Calc, lst: seq<Token>)
    requires Fine(lst) && Parse(Precedence, lst).Ok?
    ensures GetTerm(apply, lst) == Eval(apply, Parse(Precedence, lst).value)
  {
    SameTree(lst);
    TermIs(apply, lst);
  }

  /** In every group of the condition, at any depth, the operators come from at most two levels. */
  ghost predicate Simple(lst: seq<Token>)
    decreases |lst|, 2
  {
    var p := ParseNum(Precedence, lst);
    SimpleNum(lst) && (p.Ok? ==> SimpleLinks(p.value.rest) && TwoLevelLinks(ParseLinks(Precedence, p.value.rest)))
  }

  ghost predicate TwoLevelLinks(ls: Result<seq<Link>>) {
    ls.Ok? ==> TwoLevels(Ranks(ls.value))
  }

  ghost predicate SimpleNum(lst: seq<Token>)
    decreases |lst|, 0
  {
    lst != [] && lst[0].Op? ==>
      if lst[0].op == LPar then
        var i := FindClose(lst, 1, 1);
        i.Some? ==> Simple(lst[1..i.value])
      else SimpleNum(lst[1..])
  }

  ghost predicate SimpleLinks(lst: seq<Token>)
    decreases |lst|, 1
  {
    lst != [] ==>
      SimpleNum(lst[1..]) && (var p := ParseNum(Precedence, lst[1..]); p.Ok? ==> SimpleLinks(p.value.rest))
  }

  lemma {:induction false} SimpleFineNum(lst: seq<Token>)
    requires SimpleNum(lst)
    ensures FineNum(lst)
    decreases |lst|, 0
  {
    if lst != [] && lst[0].Op? {
      if lst[0].op == LPar {
        var i := FindClose(lst, 1, 1);
        if i.Some? {
          SimpleFine(lst[1..i.value]);
        }
      } else {
        SimpleFineNum(lst[1..]);
      }
    }
  }

  lemma {:induction false} SimpleFineLinks(lst: seq<Token>)
    requires SimpleLinks(lst)
    ensures FineLinks(lst)
    decreases |lst|, 1
  {
    if lst != [] {
      SimpleFineNum(lst[1..]);
      var p := ParseNum(Precedence, lst[1..]);
      if p.Ok? {
        SimpleFineLinks(p.value.rest);
      }
    }
  }

  lemma {:induction false} SimpleFine(lst: seq<Token>)
    requires Simple(lst)
    ensures Fine(lst)
    decreases |lst|, 2
  {
    var p := ParseNum(Precedence, lst);
    SimpleFineNum(lst);
    if p.Ok? {
      SimpleFineLinks(p.value.rest);
      var ls := ParseLinks(Precedence, p.value.rest);
      if ls.Ok? {
        var a, b :| OnlyLevels(Ranks(ls.value), a, b);
        TwoLevelsOrderly(Ranks(ls.value), a, b);
      }
    }
  }

  /** A condition whose operators come, in each group, from at most two levels has the value its precedence tree
      has, and raises when that does. */
  lemma TwoLevelsIsPrecedence(apply: Calc, lst: seq<Token>)
    requires Simple(lst) && Parse(Precedence, lst).Ok?
    ensures GetTerm(apply, lst) == Eval(apply, Parse(Precedence, lst).value)
  {
    SimpleFine(lst);
    ConditionIsPrecedence(apply, lst);
  }

  ghost function Pair(o: Operator, v: int): seq<Token> {
    [Op(o)] + [Num(v)]
  }

  /** The smallest condition that goes wrong: three levels, each tighter than the one before. */
  lemma ThreeLevels(apply: Calc, lst: seq<Token>, v: seq<int>, o: Operator, p: Operator, q: Operator)
    requires |v| == 4 && Rank(q) < Rank(p) < Rank(o) && Binary(o)
    requires lst == [Num(v[0])] + (Pair(o, v[1]) + (Pair(p, v[2]) + Pair(q, v[3])))
    ensures GetTerm(apply, lst) == Eval(apply, Bin(o, Leaf(v[0]), Bin(q, Bin(p, Leaf(v[1]), Leaf(v[2])), Leaf(v[3]))))
    ensures Parse(Precedence, lst) == Ok(Bin(o, Leaf(v[0]), Bin(p, Leaf(v[1]), Bin(q, Leaf(v[2]), Leaf(v[3])))))
  {
    hide Pair, Rank, Parse, Fold, Precedence, GetTerm;
    var ls := [Link(o, Leaf(v[1]))] + ([Link(p, Leaf(v[2]))] + [Link(q, Leaf(v[3]))]);
    ThreeLinks(Fold, lst, v, o, p, q, ls);
    ThreeLinks(Precedence, lst, v, o, p, q, ls);
    TermIs(apply, lst);
    FoldThree(Leaf(v[0]), ls);
    PrecedenceThree(Leaf(v[0]), ls);
  }

  lemma OneMore(build: Build, o: Operator, v: int, rest: seq<Token>)
    requires ParseLinks(build, rest).Ok? && Binary(o)
    ensures ParseLinks(build, Pair(o, v) + rest) == Ok([Link(o, Leaf(v))] + ParseLinks(build, rest).value)
  {
    hide ParseLinks;
    assert Pair(o, v) + rest == [Op(o)] + ([Num(v)] + rest);
    Relinked(build, o, v, rest);
  }

  lemma ThreeLinks(build: Build, lst: seq<Token>, v: seq<int>, o: Operator, p: Operator, q: Operator, ls: seq<Link>)
    requires |v| == 4 && Binary(o) && Binary(p) && Binary(q)
    requires lst == [Num(v[0])] + (Pair(o, v[1]) + (Pair(p, v[2]) + Pair(q, v[3])))
    requires ls == [Link(o, Leaf(v[1]))] + ([Link(p, Leaf(v[2]))] + [Link(q, Leaf(v[3]))])
    ensures Parse(build, lst) == Ok(build(Leaf(v[0]), ls))
  {
    assert ParseLinks(build, []) == Ok([]);
    hide *;
    var c := Pair(q, v[3]);
    var b := Pair(p, v[2]) + c;
    OneMore(build, q, v[3], []);
    assert c + [] == c && [Link(q, Leaf(v[3]))] + [] == [Link(q, Leaf(v[3]))];
    OneMore(build, p, v[2], c);
    OneMore(build, o, v[1], b);
    Renumbered(build, v[0], Pair(o, v[1]) + b);
  }

  lemma FoldThree(x: Ast, ls: seq<Link>)
    requires |ls| == 3 && Rank(ls[2].op) < Rank(ls[1].op) < Rank(ls[0].op)
    ensures Fold(x, ls) == Bin(ls[0].op, x, Bin(ls[2].op, Bin(ls[1].op, ls[0].arg, ls[1].arg), ls[2].arg))
  {
    hide Rank;
    var m := [Link(ls[0].op, Bin(ls[1].op, ls[0].arg, ls[1].arg))] + ls[2..];
    var n := [Link(m[0].op, Bin(m[1].op, m[0].arg, m[1].arg))] + m[2..];
    assert Fold(x, ls) == Fold(x, m) == Fold(x, n);
  }

  lemma PrecedenceThree(x: Ast, ls: seq<Link>)
    requires |ls| == 3 && Rank(ls[2].op) < Rank(ls[1].op) < Rank(ls[0].op)
    ensures Precedence(x, ls) == Bin(ls[0].op, x, Bin(ls[1].op, ls[0].arg, Bin(ls[2].op, ls[1].arg, ls[2].arg)))
  {
    hide Rank, Root;
    var m, n := ls[1..], ls[2..];
    RootIs(ls, 0);
    RootIs(m, 0);
    RootIs(n, 0);
    assert ls[..0] == [] && m[..0] == [] && n[..0] == [] && m[1..] == n && n[1..] == [];
    assert Precedence(n[0].arg, []) == n[0].arg;
    assert Precedence(m[0].arg, n) == Bin(n[0].op, m[0].arg, n[0].arg);
    assert Precedence(ls[0].arg, m) == Bin(m[0].op, ls[0].arg, Precedence(m[0].arg, n));
  }

  /** Two operators between three numbers. */
  lemma TwoOperators(apply: Calc, a: int, o: Operator, b: int, p: Operator, c: int)
    requires Binary(o) && Binary(p)
    ensures GetTerm(apply, [Num(a)] + (Pair(o, b) + Pair(p, c))) ==
      Eval(apply, if Rank(p) >= Rank(o) then Bin(p, Bin(o, Leaf(a), Leaf(b)), Leaf(c))
                  else Bin(o, Leaf(a), Bin(p, Leaf(b), Leaf(c))))
  {
    assert ParseLinks(Fold, []) == Ok([]);
    hide Pair, Rank, ParseLinks, Parse, Fold, GetTerm, Eval;
    var x, l, m := Leaf(a), Link(o, Leaf(b)), Link(p, Leaf(c));
    OneMore(Fold, p, c, []);
    assert Pair(p, c) + [] == Pair(p, c) && [m] + [] == [m];
    OneMore(Fold, o, b, Pair(p, c));
    Renumbered(Fold, a, Pair(o, b) + Pair(p, c));
    TermIs(apply, [Num(a)] + (Pair(o, b) + Pair(p, c)));
    FoldTwo(x, l, m);
  }

  lemma FoldTwo(x: Ast, l: Link, m: Link)
    ensures Fold(x, [l] + [m]) ==
      if Rank(m.op) >= Rank(l.op) then Bin(m.op, Bin(l.op, x, l.arg), m.arg) else Bin(l.op, x, Bin(m.op, l.arg, m.arg))
  {
    hide Rank;
    var y, n := Bin(l.op, x, l.arg), Link(l.op, Bin(m.op, l.arg, m.arg));
    assert ([l] + [m])[1..] == [m] && ([l] + [m])[2..] == [] && [n] + [] == [n];
    assert Fold(y, [m]) == Bin(m.op, y, m.arg) && Fold(x, [n]) == Bin(n.op, x, n.arg);
  }

  lemma TwoValues(apply: Calc, a: int, o: Operator, b: int, p: Operator, c: int)
    ensures Eval(apply, Bin(p, Bin(o, Leaf(a), Leaf(b)), Leaf(c))) ==
      (if apply(o, a, b).None? then Err else Folded(apply, p, apply(o, a, b).value, c))
    ensures Eval(apply, Bin(o, Leaf(a), Bin(p, Leaf(b), Leaf(c)))) ==
      (if apply(p, b, c).None? then Err else Folded(apply, o, a, apply(p, b, c).value))
  {
    assert Eval(apply, Bin(o, Leaf(a), Leaf(b))) == Folded(apply, o, a, b);
    assert Eval(apply, Bin(p, Leaf(b), Leaf(c))) == Folded(apply, p, b, c);
  }

  /** The value of `a o b p c`. */
  ghost function OfThree(bits: Calc, a: int, o: Operator, b: int, p: Operator, c: int): Result<int> {
    GetTerm(ReduceNums(bits), [Num(a)] + (Pair(o, b) + Pair(p, c)))
  }

  lemma ThreeIs(bits: Calc, a: int, o: Operator, b: int, p: Operator, c: int)
    requires Binary(o) && Binary(p)
    ensures OfThree(bits, a, o, b, p, c) ==
      var apply := ReduceNums(bits);
      if Rank(p) >= Rank(o)
        then if apply(o, a, b).None? then Err else Folded(apply, p, apply(o, a, b).value, c)
        else if apply(p, b, c).None? then Err else Folded(apply, o, a, apply(p, b, c).value)
  {
    hide GetTerm, Pair, Eval, ReduceNums, Rank;
    TwoOperators(ReduceNums(bits), a, o, b, p, c);
    TwoValues(ReduceNums(bits), a, o, b, p, c);
  }

  /** Products before sums, and from the left within a level. */
  lemma SumsOfProducts(bits: Calc, a: int, b: int, c: int)
    ensures OfThree(bits, a, Plus, b, Mul, c) == Ok(a + b * c) && OfThree(bits, a, Mul, b, Plus, c) == Ok(a * b + c)
    ensures OfThree(bits, a, Minus, b, Minus, c) == Ok(a - b - c)
  {
    ThreeIs(bits, a, Plus, b, Mul, c);
    ThreeIs(bits, a, Mul, b, Plus, c);
    ThreeIs(bits, a, Minus, b, Minus, c);
    hide OfThree;
  }

  /** Sums before comparisons, comparisons before `&&`. */
  lemma TestsOfSums(bits: Calc, a: int, b: int, c: int)
    ensures OfThree(bits, a, Lt, b, Plus, c) == Truth(a < b + c)
    ensures OfThree(bits, a, AndAnd, b, Lt, c) == Ok(if a == 0 then 0 else if b < c then 1 else 0)
  {
    ThreeIs(bits, a, Lt, b, Plus, c);
    ThreeIs(bits, a, AndAnd, b, Lt, c);
    hide OfThree;
  }

  /** `1 && 2 == 1 * 2` comes out false. */
  lemma TrueComesOutFalse(bits: Calc, lst: seq<Token>)
    requires lst == [Num(1), Op(AndAnd), Num(2), Op(Eq), Num(1), Op(Mul), Num(2)]
    ensures GetTerm(ReduceNums(bits), lst) == Ok(0)
    ensures Parse(Precedence, lst).Ok? && Eval(ReduceNums(bits), Parse(Precedence, lst).value) == Ok(1)
  {
    hide GetTerm, Parse, Precedence, Fold;
    var apply := ReduceNums(bits);
    assert lst == [Num(1)] + (Pair(AndAnd, 2) + (Pair(Eq, 1) + Pair(Mul, 2)));
    ThreeLevels(apply, lst, [1, 2, 1, 2], AndAnd, Eq, Mul);
    assert Eval(apply, Bin(Eq, Leaf(2), Leaf(1))) == Ok(0);
    assert Eval(apply, Bin(Mul, Leaf(1), Leaf(2))) == Ok(2);
  }

  /** `&&` and `||` give one of their operands rather than 0 or 1. */
  lemma AndIsNotOne(bits: Calc, a: int, b: int)
    requires a != 0
    ensures ReduceNums(bits)(AndAnd, a, b) == Some(b) && ReduceNums(bits)(OrOr, a, b) == Some(a)
  {
  }
}
