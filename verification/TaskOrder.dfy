/** waflib/Task.py: the ordering constraints put on the tasks of one build group before it is run.
    `run_after` of every task is a set of tasks, kept here in one map. */
module TaskOrder {
  import opened Basics

  type Task = nat
  type Node = nat

  /** What a task class fixes: its name, its ordering attributes and its code hash. Two tasks have the
      same `hash_constraints` exactly when they have the same kind (the hash is taken to be injective). */
  datatype Kind = Kind(name: string, before: seq<string>, after: seq<string>,
                       extIn: seq<string>, extOut: seq<string>, code: string)

  datatype Info = Info(inputs: seq<Node>, depNodes: seq<Node>, outputs: seq<Node>, kind: Kind)

  type RunAfter = map<Task, set<Task>>

  /** The classes ask for tasks of kind `k1` to go before tasks of kind `k2`: `k1` makes something, as an
      `ext_out`, that is an `ext_in` of `k2`, or one of the two names the other. */
  ghost predicate Asks(k1: Kind, k2: Kind) {
    || (exists x :: x in k1.extOut && x in k2.extIn)
    || k1.name in k2.after
    || k2.name in k1.before
  }

  /** `is_before`: the answers of the source, in its order. */
  method IsBefore(k1: Kind, k2: Kind) returns (before: bool)
    ensures before <==> Asks(k1, k2)
  {
    for i := 0 to |k2.extIn|
      invariant forall j :: 0 <= j < i ==> k2.extIn[j] !in k1.extOut
    {
      if k2.extIn[i] in k1.extOut {
        return true;
      }
    }
    if k1.name in k2.after {
      return true;
    }
    if k2.name in k1.before {
      return true;
    }
    return false;
  }

  function Reads(info: Info): seq<Node> {
    info.inputs + info.depNodes
  }

  /** The tasks of the group that output a file `t` has among its inputs or further dependencies. */
  ghost function Producers(info: map<Task, Info>, tasks: set<Task>, t: Task): set<Task>
    requires tasks <= info.Keys && t in info
  {
    set p | p in tasks && exists n :: n in info[p].outputs && (n in info[t].inputs || n in info[t].depNodes)
  }

  /** Which of two kinds goes first, once the class dictionary lists its keys as `keys`: a request one
      way decides, and when the classes ask for both the earlier key does. */
  ghost predicate GoesFirst(keys: seq<Kind>, k1: Kind, k2: Kind) {
    exists i, j :: 0 <= i < |keys| && 0 <= j < |keys| && i != j && keys[i] == k1 && keys[j] == k2
                   && Asks(k1, k2) && (Asks(k2, k1) ==> i < j)
  }

  ghost function Preceding(info: map<Task, Info>, tasks: set<Task>, keys: seq<Kind>, t: Task): set<Task>
    requires tasks <= info.Keys && t in info
  {
    set p | p in tasks && GoesFirst(keys, info[p].kind, info[t].kind)
  }

  /** What the attributes of the classes `a` and `b` of two tasks have to say. `now` and `was` tell whether the
      second is to run after the first, and `backNow` and `backWas` the reverse, at the end and before. Asked for
      one way only, the order is put; not asked for, or between tasks of one class, it is not; and asked for both
      ways between two classes it is put one way. */
  ghost predicate Settled(a: Kind, b: Kind, now: bool, was: bool, backNow: bool, backWas: bool) {
    var asked := (exists x :: x in a.extOut && x in b.extIn) || a.name in b.after || b.name in a.before;
    var back := (exists x :: x in b.extOut && x in a.extIn) || b.name in a.after || a.name in b.before;
    && (asked && !back ==> now)
    && (now ==> was || (asked && a != b))
    && (asked && back && a != b ==> now || backNow)
    && (now && backNow ==> was || backWas)
  }

  method AddAll(m: map<Node, set<Task>>, nodes: seq<Node>, t: Task) returns (r: map<Node, set<Task>>)
    ensures r.Keys == m.Keys + Elements(nodes)
    ensures forall n :: n in r ==> r[n] == (if n in m then m[n] else {}) + (if n in nodes then {t} else {})
  {
    r := m;
    for i := 0 to |nodes|
      invariant r.Keys == m.Keys + Elements(nodes[..i])
      invariant forall n :: n in r ==>
        r[n] == (if n in m then m[n] else {}) + (if n in nodes[..i] then {t} else {})
    {
      var n := nodes[i];
      r := r[n := (if n in r then r[n] else {}) + {t}];
    }
    assert nodes[..|nodes|] == nodes;
  }

  ghost predicate Indexes(m: map<Node, set<Task>>, tasks: set<Task>, files: map<Task, set<Node>>) {
    && (forall n, t :: n in m && t in m[n] ==> t in tasks && t in files && n in files[t])
    && (forall t, n :: t in tasks && t in files && n in files[t] ==> n in m && t in m[n])
  }

  lemma IndexesGrow(m: map<Node, set<Task>>, r: map<Node, set<Task>>, tasks: set<Task>, files: map<Task, set<Node>>,
                    nodes: seq<Node>, t: Task)
    requires Indexes(m, tasks, files) && t in files && files[t] == Elements(nodes)
    requires r.Keys == m.Keys + Elements(nodes)
    requires forall n :: n in r ==> r[n] == (if n in m then m[n] else {}) + (if n in nodes then {t} else {})
    ensures Indexes(r, tasks + {t}, files)
  {
  }

  ghost function ReadBy(info: map<Task, Info>): map<Task, set<Node>> {
    map t | t in info :: Elements(Reads(info[t]))
  }

  ghost function WrittenBy(info: map<Task, Info>): map<Task, set<Node>> {
    map t | t in info :: Elements(info[t].outputs)
  }

  /** `set_file_constraints`: exactly the tasks of the group that output a file another reads are
      added to the reader's `run_after`, and no other task is touched. */
  method SetFileConstraints(info: map<Task, Info>, tasks: seq<Task>, runAfter: RunAfter) returns (r: RunAfter)
    requires Elements(tasks) <= info.Keys && Elements(tasks) <= runAfter.Keys
    ensures r.Keys == runAfter.Keys
    ensures forall t :: t in r && t !in tasks ==> r[t] == runAfter[t]
    ensures forall t :: t in tasks ==> r[t] == runAfter[t] + Producers(info, Elements(tasks), t)
    ensures forall p, t, n :: p in tasks && t in tasks && p in info && t in info ==>
      (n in info[p].outputs && (n in info[t].inputs || n in info[t].depNodes) ==> p in r[t])
  {
    var ins, outs := IndexFiles(info, tasks);
    var links := ins.Keys * outs.Keys;
    ghost var seen: set<Node> := {};
    r := runAfter;
    while links != {}
      invariant seen !! links && seen + links == ins.Keys * outs.Keys
      invariant r.Keys == runAfter.Keys
      invariant forall t :: t in r ==> r[t] == runAfter[t] + Linked(ins, outs, seen, t)
      decreases links
    {
      var k :| k in links;
      links := links - {k};
      ghost var was := r;
      r := map t | t in r :: if t in ins[k] then r[t] + outs[k] else r[t];
      forall t | t in r
        ensures r[t] == runAfter[t] + Linked(ins, outs, seen + {k}, t)
      {
        LinkedGrows(ins, outs, seen, k, t);
      }
      seen := seen + {k};
    }
    forall t | t in r
      ensures t !in tasks ==> Linked(ins, outs, seen, t) == {}
      ensures t in tasks ==> Linked(ins, outs, seen, t) == Producers(info, Elements(tasks), t)
    {
      LinkedAreProducers(info, tasks, ins, outs, seen, t);
    }
  }

  /** The two dictionaries from a file to the tasks that read it and to the tasks that write it. */
  method IndexFiles(info: map<Task, Info>, tasks: seq<Task>)
    returns (ins: map<Node, set<Task>>, outs: map<Node, set<Task>>)
    requires Elements(tasks) <= info.Keys
    ensures Indexes(ins, Elements(tasks), ReadBy(info)) && Indexes(outs, Elements(tasks), WrittenBy(info))
  {
    ins, outs := map[], map[];
    for i := 0 to |tasks|
      invariant Indexes(ins, Elements(tasks[..i]), ReadBy(info))
      invariant Indexes(outs, Elements(tasks[..i]), WrittenBy(info))
    {
      var t := tasks[i];
      assert t in Elements(tasks);
      assert Elements(tasks[..i + 1]) == Elements(tasks[..i]) + {t};
      ghost var was, wasOuts := ins, outs;
      ins := AddAll(ins, Reads(info[t]), t);
      outs := AddAll(outs, info[t].outputs, t);
      IndexesGrow(was, ins, Elements(tasks[..i]), ReadBy(info), Reads(info[t]), t);
      IndexesGrow(wasOuts, outs, Elements(tasks[..i]), WrittenBy(info), info[t].outputs, t);
    }
    assert tasks[..|tasks|] == tasks;
  }

  ghost function Linked(ins: map<Node, set<Task>>, outs: map<Node, set<Task>>, seen: set<Node>, t: Task): set<Task>
    requires seen <= ins.Keys * outs.Keys
  {
    set p, k | k in seen && t in ins[k] && p in outs[k] :: p
  }

  lemma LinkedGrows(ins: map<Node, set<Task>>, outs: map<Node, set<Task>>, seen: set<Node>, k: Node, t: Task)
    requires seen <= ins.Keys * outs.Keys && k in ins && k in outs
    ensures Linked(ins, outs, seen + {k}, t) == Linked(ins, outs, seen, t) + if t in ins[k] then outs[k] else {}
  {
  }

  lemma LinkedAreProducers(info: map<Task, Info>, tasks: seq<Task>, ins: map<Node, set<Task>>,
                           outs: map<Node, set<Task>>,
                           seen: set<Node>, t: Task)
    requires Elements(tasks) <= info.Keys && seen == ins.Keys * outs.Keys
    requires Indexes(ins, Elements(tasks), ReadBy(info)) && Indexes(outs, Elements(tasks), WrittenBy(info))
    ensures t !in tasks ==> Linked(ins, outs, seen, t) == {}
    ensures t in tasks ==> t in info && Linked(ins, outs, seen, t) == Producers(info, Elements(tasks), t)
  {
    forall k, x | k in ins && x in ins[k]
      ensures x in tasks
    {
      assert x in Elements(tasks);
    }
    if t in tasks {
      assert t in Elements(tasks);
      forall p | p in Producers(info, Elements(tasks), t)
        ensures p in Linked(ins, outs, seen, t)
      {
        var k :| k in info[p].outputs && (k in info[t].inputs || k in info[t].depNodes);
        assert k in ReadBy(info)[t] && k in WrittenBy(info)[p];
        assert k in ins && k in outs;
      }
      forall p | p in Linked(ins, outs, seen, t)
        ensures p in Producers(info, Elements(tasks), t)
      {
        var k :| k in seen && t in ins[k] && p in outs[k];
        assert k in ReadBy(info)[t] && k in WrittenBy(info)[p];
      }
    }
  }

  ghost predicate HasKind(info: map<Task, Info>, tasks: seq<Task>, k: Kind) {
    exists t :: t in tasks && t in info && info[t].kind == k
  }

  /** `set_precedence_constraints`. Only one representative of each kind is compared; the answer holds
      for all tasks of the two kinds. `keys` is the arbitrary order in which the dictionary of kinds
      lists them. */
  method SetPrecedenceConstraints(info: map<Task, Info>, tasks: seq<Task>, runAfter: RunAfter)
      returns (r: RunAfter, keys: seq<Kind>)
    requires Elements(tasks) <= info.Keys && Elements(tasks) <= runAfter.Keys
    ensures r.Keys == runAfter.Keys && NoDup(keys)
    ensures forall k :: k in keys <==> HasKind(info, tasks, k)
    ensures forall t :: t in r && t !in tasks ==> r[t] == runAfter[t]
    ensures forall t :: t in tasks ==> r[t] == runAfter[t] + Preceding(info, Elements(tasks), keys, t)
    ensures forall p, t :: p in tasks && t in tasks && p in info && t in info ==>
      Settled(info[p].kind, info[t].kind, p in r[t], p in runAfter[t], t in r[p], t in runAfter[p])
  {
    keys := GroupKeys(info, tasks);
    r := runAfter;
    ghost var done: set<(int, int)> := {};
    for i := 0 to |keys|
      invariant r.Keys == runAfter.Keys
      invariant forall t :: t in r ==> r[t] == runAfter[t] + Added(info, tasks, keys, done, t)
      invariant forall a, b :: 0 <= a < b < |keys| && a < i <==> (a, b) in done
    {
      for j := i + 1 to |keys|
        invariant r.Keys == runAfter.Keys
        invariant forall t :: t in r ==> r[t] == runAfter[t] + Added(info, tasks, keys, done, t)
        invariant forall a, b :: 0 <= a < b < |keys| && (a < i || (a == i && b < j)) <==> (a, b) in done
      {
        r := Compare(info, tasks, keys, i, j, runAfter, r, done);
        done := done + {(i, j)};
      }
    }
    forall t | t in tasks
      ensures Added(info, tasks, keys, done, t) == Preceding(info, Elements(tasks), keys, t)
    {
      AddedIsPreceding(info, tasks, keys, done, t);
    }
    hide GoesFirst, HasKind, Settled;
    forall p, t | p in tasks && t in tasks && p in info && t in info
      ensures Settled(info[p].kind, info[t].kind, p in r[t], p in runAfter[t], t in r[p], t in runAfter[p])
    {
      OneGoesFirst(info, tasks, keys, p, t);
      OneGoesFirst(info, tasks, keys, t, p);
      SettledInOrder(keys, info[p].kind, info[t].kind, p in runAfter[t], t in runAfter[p]);
    }
  }

  /** How the answers of `is_before` for two kinds decide which of them goes first. */
  ghost predicate InOneOrder(keys: seq<Kind>, k1: Kind, k2: Kind) {
    && (Asks(k1, k2) && !Asks(k2, k1) ==> GoesFirst(keys, k1, k2))
    && (GoesFirst(keys, k1, k2) ==> Asks(k1, k2) && k1 != k2)
    && (Asks(k1, k2) && Asks(k2, k1) && k1 != k2 ==> GoesFirst(keys, k1, k2) || GoesFirst(keys, k2, k1))
    && !(GoesFirst(keys, k1, k2) && GoesFirst(keys, k2, k1))
  }

  lemma SettledInOrder(keys: seq<Kind>, k1: Kind, k2: Kind, was: bool, backWas: bool)
    requires InOneOrder(keys, k1, k2) && InOneOrder(keys, k2, k1)
    ensures Settled(k1, k2, was || GoesFirst(keys, k1, k2), was, backWas || GoesFirst(keys, k2, k1), backWas)
  {
    hide GoesFirst;
  }

  lemma OneGoesFirst(info: map<Task, Info>, tasks: seq<Task>, keys: seq<Kind>, p: Task, t: Task)
    requires Elements(tasks) <= info.Keys && p in tasks && t in tasks && p in info && t in info && NoDup(keys)
    requires forall k :: k in keys <==> HasKind(info, tasks, k)
    ensures GoesFirst(keys, info[p].kind, info[t].kind) <==> p in Preceding(info, Elements(tasks), keys, t)
    ensures InOneOrder(keys, info[p].kind, info[t].kind)
  {
    hide Asks;
    var k1, k2 := info[p].kind, info[t].kind;
    assert HasKind(info, tasks, k1) && HasKind(info, tasks, k2);
    assert k1 in keys && k2 in keys;
    var i, j :| 0 <= i < |keys| && 0 <= j < |keys| && keys[i] == k1 && keys[j] == k2;
  }

  /** One turn of the inner loop: the two kinds at positions `i < j` are compared. */
  method Compare(info: map<Task, Info>, tasks: seq<Task>, keys: seq<Kind>, i: nat, j: nat,
                 ghost start: RunAfter, ra: RunAfter, ghost done: set<(int, int)>) returns (r: RunAfter)
    requires Elements(tasks) <= info.Keys && Elements(tasks) <= ra.Keys
    requires ra.Keys == start.Keys && i < j < |keys| && NoDup(keys)
    requires forall t :: t in ra ==> ra[t] == start[t] + Added(info, tasks, keys, done, t)
    ensures r.Keys == start.Keys
    ensures forall t :: t in r ==> r[t] == start[t] + Added(info, tasks, keys, done + {(i, j)}, t)
  {
    hide Added, Asks;
    r := ra;
    var before := IsBefore(keys[i], keys[j]);
    if before {
      r := Follow(info, tasks, r, keys[i], keys[j]);
    } else {
      var after := IsBefore(keys[j], keys[i]);
      if after {
        r := Follow(info, tasks, r, keys[j], keys[i]);
      }
    }
    forall t | t in r
      ensures r[t] == start[t] + Added(info, tasks, keys, done + {(i, j)}, t)
    {
      AddedStep(info, tasks, keys, done, i, j, t);
      StepIs(info, tasks, keys[i], keys[j], t);
    }
  }

  /** What comparing positions `i` and `j` contributes. */
  ghost function Step(info: map<Task, Info>, tasks: seq<Task>, k1: Kind, k2: Kind, t: Task): set<Task>
    requires Elements(tasks) <= info.Keys
  {
    set p | p in tasks && t in tasks && p in info && t in info &&
      ((info[p].kind == k1 && info[t].kind == k2 && Asks(k1, k2)) ||
       (info[p].kind == k2 && info[t].kind == k1 && Asks(k2, k1) && !Asks(k1, k2)))
  }

  lemma StepIs(info: map<Task, Info>, tasks: seq<Task>, k1: Kind, k2: Kind, t: Task)
    requires Elements(tasks) <= info.Keys && k1 != k2
    ensures Step(info, tasks, k1, k2, t) ==
      if Asks(k1, k2)
        then (if t in tasks && info[t].kind == k2 then set p | p in tasks && info[p].kind == k1 else {})
      else if Asks(k2, k1)
        then (if t in tasks && info[t].kind == k1 then set p | p in tasks && info[p].kind == k2 else {})
      else {}
  {
    assert forall p :: p in tasks ==> p in Elements(tasks);
  }

  lemma AddedStep(info: map<Task, Info>, tasks: seq<Task>, keys: seq<Kind>, done: set<(int, int)>, i: nat, j: nat,
                  t: Task)
    requires Elements(tasks) <= info.Keys && i < j < |keys| && NoDup(keys)
    ensures Added(info, tasks, keys, done + {(i, j)}, t)
         == Added(info, tasks, keys, done, t) + Step(info, tasks, keys[i], keys[j], t)
  {
    forall p | p in tasks && t in tasks
      ensures p in info && t in info
      ensures Decides(keys, done + {(i, j)}, info[p].kind, info[t].kind)
         <==> Decides(keys, done, info[p].kind, info[t].kind) || p in Step(info, tasks, keys[i], keys[j], t)
    {
      assert p in Elements(tasks) && t in Elements(tasks);
      DecidesStep(keys, done, i, j, info[p].kind, info[t].kind);
    }
  }

  lemma DecidesStep(keys: seq<Kind>, done: set<(int, int)>, i: nat, j: nat, k1: Kind, k2: Kind)
    requires i < j < |keys| && NoDup(keys)
    ensures Decides(keys, done + {(i, j)}, k1, k2) <==>
      || Decides(keys, done, k1, k2)
      || (keys[i] == k1 && keys[j] == k2 && Asks(k1, k2))
      || (keys[i] == k2 && keys[j] == k1 && Asks(k1, k2) && !Asks(k2, k1))
  {
    if Decides(keys, done + {(i, j)}, k1, k2) {
      var a, b :| 0 <= a < |keys| && 0 <= b < |keys| && keys[a] == k1 && keys[b] == k2 && Asks(k1, k2)
                  && ((a, b) in done + {(i, j)} || ((b, a) in done + {(i, j)} && !Asks(k2, k1)));
    }
    assert (i, j) in done + {(i, j)};
  }

  method GroupKeys(info: map<Task, Info>, tasks: seq<Task>) returns (keys: seq<Kind>)
    requires Elements(tasks) <= info.Keys
    ensures NoDup(keys)
    ensures forall k :: k in keys <==> HasKind(info, tasks, k)
  {
    keys := [];
    for i := 0 to |tasks|
      invariant NoDup(keys)
      invariant forall j :: 0 <= j < i ==> tasks[j] in info && info[tasks[j]].kind in keys
      invariant forall k :: k in keys ==> HasKind(info, tasks, k)
    {
      assert tasks[i] in Elements(tasks);
      var k := info[tasks[i]].kind;
      assert HasKind(info, tasks, k);
      if k !in keys {
        var at :| 0 <= at <= |keys|;
        var before, after := keys[..at], keys[at..];
        assert keys == before + after;
        keys := before + [k] + after;
      }
    }
  }

  /** All tasks of kind `k1` are put before all tasks of kind `k2`. */
  method Follow(info: map<Task, Info>, tasks: seq<Task>, ra: RunAfter, k1: Kind, k2: Kind) returns (r: RunAfter)
    requires Elements(tasks) <= info.Keys && Elements(tasks) <= ra.Keys
    ensures r.Keys == ra.Keys
    ensures forall t :: t in r ==>
      r[t] == ra[t] + (if t in tasks && info[t].kind == k2 then set p | p in tasks && info[p].kind == k1 else {})
  {
    var first := set p | p in tasks && info[p].kind == k1;
    r := map t | t in ra :: if t in tasks && info[t].kind == k2 then ra[t] + first else ra[t];
  }

  ghost predicate Decides(keys: seq<Kind>, done: set<(int, int)>, k1: Kind, k2: Kind) {
    exists i, j :: 0 <= i < |keys| && 0 <= j < |keys| && keys[i] == k1 && keys[j] == k2 && Asks(k1, k2)
                   && ((i, j) in done || ((j, i) in done && !Asks(k2, k1)))
  }

  ghost function Added(info: map<Task, Info>, tasks: seq<Task>, keys: seq<Kind>, done: set<(int, int)>,
                       t: Task): set<Task>
    requires Elements(tasks) <= info.Keys
  {
    set p | p in tasks && t in tasks && Decides(keys, done, info[p].kind, info[t].kind)
  }

  lemma AddedIsPreceding(info: map<Task, Info>, tasks: seq<Task>, keys: seq<Kind>, done: set<(int, int)>, t: Task)
    requires Elements(tasks) <= info.Keys && t in tasks && NoDup(keys)
    requires forall a, b :: 0 <= a < b < |keys| <==> (a, b) in done
    ensures t in info && Added(info, tasks, keys, done, t) == Preceding(info, Elements(tasks), keys, t)
  {
    assert t in Elements(tasks);
    forall p | p in tasks
      ensures p in info && (Decides(keys, done, info[p].kind, info[t].kind) <==>
                            GoesFirst(keys, info[p].kind, info[t].kind))
    {
      assert p in Elements(tasks);
      var k1, k2 := info[p].kind, info[t].kind;
      if GoesFirst(keys, k1, k2) {
        var i, j :| 0 <= i < |keys| && 0 <= j < |keys| && i != j && keys[i] == k1 && keys[j] == k2
                    && Asks(k1, k2) && (Asks(k2, k1) ==> i < j);
        assert (i, j) in done || (j, i) in done;
      }
    }
  }
}
