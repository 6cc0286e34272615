/** Layered environments: tables that fall back on their parents, with lists that are changed in place. */
module ConfigSet {
  import opened Basics

  type Key = string

  /** A table holds references to list objects. */
  type Ref = nat
  datatype Value = Text(text: string) | List(list: Ref)
  type Table = map<Key, Value>

  /** What `stash` puts aside: a table with its own undo stack. */
  datatype Saved = Saved(table: Table, undo: Option<seq<Saved>>)

  /** Proofs keep track of what a list was made for: an environment, a key, and how many stashes that
      environment had open then. */
  datatype Owner = Owner(home: Env, key: Key, level: nat)

  type Lists = map<Ref, seq<string>>

  datatype Mem = Mem(lists: Lists, owner: map<Ref, Owner>)

  /** The list objects there are. */
  class Memory {
    var lists: Lists
    var next: Ref
    ghost var owner: map<Ref, Owner>

    constructor ()
      ensures Valid() && lists == map[]
    {
      lists, next, owner := map[], 0, map[];
    }

    ghost predicate Valid()
      reads this
    {
      lists.Keys == owner.Keys && forall r :: r in lists ==> r < next
    }

    ghost function View(): Mem
      reads this
    {
      Mem(lists, owner)
    }

    method Make(q: seq<string>, ghost o: Owner) returns (r: Ref)
      requires Valid()
      modifies this
      ensures Valid() && r !in old(lists) && View() == Mem(old(lists)[r := q], old(owner)[r := o])
    {
      r := next;
      lists := lists[r := q];
      next := next + 1;
      owner := owner[r := o];
    }

    method ExtendUnique(r: Ref, val: seq<string>)
      requires Valid() && r in lists
      modifies this`lists
      ensures Valid() && lists == old(lists)[r := WithNew(old(lists)[r], val)]
      ensures AddsNew(old(lists)[r], val, lists[r])
    {
      WithNewAdds(lists[r], val);
      assert lists == lists[r := WithNew(lists[r], val[..0])];
      for i := 0 to |val|
        invariant Valid() && lists == old(lists)[r := WithNew(old(lists)[r], val[..i])]
      {
        assert val[..i + 1][..i] == val[..i];
        if val[i] !in lists[r] {
          lists := lists[r := lists[r] + [val[i]]];
        }
      }
      assert val[..|val|] == val;
    }
  }

  // --- contents

  datatype Content = Word(text: string) | Words(items: seq<string>)

  type Contents = map<Key, Content>

  ghost function ContentOf(lists: Lists, v: Value): Content {
    match v case Text(s) => Word(s) case List(r) => Words(if r in lists then lists[r] else [])
  }

  ghost function ContentsOf(lists: Lists, t: Table): Contents {
    map k | k in t :: ContentOf(lists, t[k])
  }

  ghost predicate AllThere(lists: Lists, t: Table) {
    forall k :: k in t && t[k].List? ==> t[k].list in lists
  }

  function AsItems(c: Content): seq<string> {
    match c case Word(s) => [s] case Words(q) => q
  }

  ghost function ItemsOf(lists: Lists, v: Option<Value>): seq<string> {
    if v.None? then [] else AsItems(ContentOf(lists, v.value))
  }

  function Last(u: seq<Saved>): Saved
    requires u != []
  {
    u[|u| - 1]
  }

  /** The fields of an environment, and for proofs the tables it has stashed, the last first. */
  datatype Rec = Rec(table: Table, undo: Option<seq<Saved>>, pasts: seq<Table>)

  /** The contents of an environment and of the tables that revert brings back, the last first. */
  datatype Layer = Layer(vals: Contents, past: seq<Contents>)

  ghost function LayerOf(lists: Lists, r: Rec): Layer {
    Layer(ContentsOf(lists, r.table), seq(|r.pasts|, i requires 0 <= i < |r.pasts| => ContentsOf(lists, r.pasts[i])))
  }

  /** Every list of the table was made for its own key of `e` at this level. */
  ghost predicate Owned(m: Mem, e: Env, n: nat, t: Table) {
    forall k :: k in t && t[k].List? ==> OwnedAt(m, e, n, k, t[k].list)
  }

  ghost predicate OwnedAt(m: Mem, e: Env, n: nat, k: Key, r: Ref) {
    r in m.lists && r in m.owner && m.owner[r] == Owner(e, k, n)
  }

  /** `pasts` are the tables that one revert after the other brings back. */
  ghost predicate Stacked(undo: Option<seq<Saved>>, pasts: seq<Table>)
    decreases |pasts|
  {
    if pasts == [] then undo.None?
    else
      && undo.Some? && undo.value != []
      && Last(undo.value).table == pasts[0] && Stacked(Last(undo.value).undo, pasts[1..])
  }

  ghost predicate PastOwned(m: Mem, e: Env, pasts: seq<Table>) {
    forall i :: 0 <= i < |pasts| ==> Owned(m, e, |pasts| - 1 - i, pasts[i])
  }

  /** No list of an environment is in reach of another, nor of two of its keys or levels. */
  ghost predicate Sound(m: Mem, e: Env, r: Rec) {
    Owned(m, e, |r.pasts|, r.table) && PastOwned(m, e, r.pasts) && Stacked(r.undo, r.pasts)
  }

  /** From `m` to `n` nothing changes but new lists and those made for `o`. */
  ghost predicate Touches(m: Mem, n: Mem, o: Owner) {
    forall r :: r in m.lists && r in m.owner ==>
      r in n.lists && r in n.owner && n.owner[r] == m.owner[r] && (m.owner[r] != o ==> n.lists[r] == m.lists[r])
  }

  lemma OwnedStays(m: Mem, n: Mem, o: Owner, e: Env, level: nat, t: Table)
    requires Touches(m, n, o) && Owned(m, e, level, t)
    ensures Owned(n, e, level, t)
    ensures o.home != e || o.level != level ==> ContentsOf(n.lists, t) == ContentsOf(m.lists, t)
    ensures forall k :: k in t && k != o.key ==> ContentOf(n.lists, t[k]) == ContentOf(m.lists, t[k])
  {
    forall k | k in t && t[k].List?
      ensures OwnedAt(n, e, level, k, t[k].list)
      ensures o.home != e || o.level != level || k != o.key ==> n.lists[t[k].list] == m.lists[t[k].list]
    {
      assert OwnedAt(m, e, level, k, t[k].list);
    }
  }

  /** What was made for one environment is nothing to the others. */
  lemma OthersStay(m: Mem, n: Mem, o: Owner, e: Env, r: Rec)
    requires Touches(m, n, o) && Sound(m, e, r) && o.home != e
    ensures Sound(n, e, r) && LayerOf(n.lists, r) == LayerOf(m.lists, r)
  {
    OwnedStays(m, n, o, e, |r.pasts|, r.table);
    forall i | 0 <= i < |r.pasts|
      ensures Owned(n, e, |r.pasts| - 1 - i, r.pasts[i])
              && ContentsOf(n.lists, r.pasts[i]) == ContentsOf(m.lists, r.pasts[i])
    {
      OwnedStays(m, n, o, e, |r.pasts| - 1 - i, r.pasts[i]);
    }
  }

  /** The environment itself changes at one key, and its stashed tables do not. */
  lemma OneKeyChanges(m: Mem, n: Mem, e: Env, r: Rec, key: Key, l: Ref)
    requires Touches(m, n, Owner(e, key, |r.pasts|)) && Sound(m, e, r)
    requires OwnedAt(n, e, |r.pasts|, key, l)
    ensures
      var s := r.(table := r.table[key := List(l)]);
      Sound(n, e, s) && LayerOf(n.lists, s)
        == LayerOf(m.lists, r).(vals := LayerOf(m.lists, r).vals[key := Words(n.lists[l])])
  {
    var o := Owner(e, key, |r.pasts|);
    OwnedStays(m, n, o, e, |r.pasts|, r.table);
    forall i | 0 <= i < |r.pasts|
      ensures Owned(n, e, |r.pasts| - 1 - i, r.pasts[i])
              && ContentsOf(n.lists, r.pasts[i]) == ContentsOf(m.lists, r.pasts[i])
    {
      OwnedStays(m, n, o, e, |r.pasts| - 1 - i, r.pasts[i]);
    }
    assert ContentsOf(n.lists, r.table[key := List(l)]) == ContentsOf(m.lists, r.table)[key := Words(n.lists[l])];
  }

  // --- the environments

  class Env {
    var table: Table
    /** The table's entry for `undo_stack`. */
    var undo: Option<seq<Saved>>
    const parent: Env?
    const mem: Memory
    ghost const above: seq<Env>
    ghost var pasts: seq<Table>

    constructor (m: Memory)
      ensures table == map[] && undo == None && parent == null && mem == m && above == [] && pasts == []
    {
      table, undo, parent, mem, above, pasts := map[], None, null, m, [], [];
    }

    constructor DerivedFrom(p: Env)
      ensures table == map[] && undo == None && parent == p && mem == p.mem && above == p.above + [p] && pasts == []
    {
      table, undo, parent, mem, above, pasts := map[], None, p, p.mem, p.above + [p], [];
    }

    method Derive() returns (newenv: Env)
      ensures fresh(newenv) && newenv.parent == this && newenv.mem == mem && newenv.above == above + [this]
      ensures newenv.Fields() == Rec(map[], None, [])
    {
      newenv := new Env.DerivedFrom(this);
    }

    ghost predicate Linked()
      decreases |above|
    {
      if parent == null then above == []
      else above == parent.above + [parent] && parent.mem == mem && parent.Linked()
    }

    ghost function Fields(): Rec
      reads this
    {
      Rec(table, undo, pasts)
    }

    /** The value found first on the way up. */
    ghost function Lookup(key: Key): Option<Value>
      requires Linked()
      reads this, set e | e in above
      decreases |above|
    {
      if key in table then Some(table[key])
      else if parent == null then None
      else
        assert above == parent.above + [parent] && above[|above| - 1] == parent;
        parent.Lookup(key)
    }

    /** What the key looks like, as a list. */
    ghost function Items(key: Key): seq<string>
      requires Linked()
      reads this, mem, set e | e in above
    {
      ItemsOf(mem.lists, Lookup(key))
    }

    method GetItem(key: Key) returns (r: Option<Value>)
      requires Linked()
      ensures r == Lookup(key)
    {
      var cur: Env := this;
      while key !in cur.table && cur.parent != null
        invariant cur.Linked() && Lookup(key) == cur.Lookup(key)
        decreases |cur.above|
      {
        assert cur.above == cur.parent.above + [cur.parent];
        cur := cur.parent;
      }
      return if key in cur.table then Some(cur.table[key]) else None;
    }

    /** `env[key] = value`. */
    method SetItem(key: Key, value: Value)
      modifies this`table
      ensures table == old(table)[key := value]
    {
      table := table[key := value];
    }

    /** What the lists made here now are made for. */
    ghost function For(key: Key): Owner
      reads this`pasts
    {
      Owner(this, key, |pasts|)
    }

    /** The list to change: the table's own, or a copy of what a parent has. */
    method GetListForModification(key: Key) returns (value: Ref)
      requires Linked() && mem.Valid() && AllThere(mem.lists, table)
      modifies this`table, mem
      ensures mem.Valid() && table == old(table)[key := List(value)]
      ensures value in mem.lists && mem.lists[value] == old(Items(key))
      ensures if old(key in table && table[key].List?)
              then value == old(table[key].list) && mem.View() == old(mem.View())
        else value !in old(mem.lists)
             && mem.View() == Mem(old(mem.lists)[value := old(Items(key))], old(mem.owner)[value := For(key)])
    {
      if key in table {
        match table[key]
        case List(l) => value := l;
        case Text(s) => value := mem.Make([s], For(key));
      } else {
        var found: Option<Value> := None;
        if parent != null {
          found := parent.GetItem(key);
        }
        assert found == Lookup(key);
        match found
        case None => value := mem.Make([], For(key));
        case Some(Text(s)) => value := mem.Make([s], For(key));
        case Some(List(l)) => value := mem.Make(if l in mem.lists then mem.lists[l] else [], For(key));
      }
      table := table[key := List(value)];
    }

    method AppendValue(key: Key, val: seq<string>) returns (ghost l: Ref)
      requires Linked() && mem.Valid() && AllThere(mem.lists, table)
      modifies this`table, mem
      ensures mem.Valid() && table == old(table)[key := List(l)]
      ensures Stored(old(mem.View()), mem.View(), l, old(Items(key)) + val, For(key), old(OwnList(key)))
    {
      var currentValue := GetListForModification(key);
      mem.lists := mem.lists[currentValue := mem.lists[currentValue] + val];
      l := currentValue;
    }

    method PrependValue(key: Key, val: seq<string>) returns (ghost l: Ref)
      requires Linked() && mem.Valid() && AllThere(mem.lists, table)
      modifies this`table, mem
      ensures mem.Valid() && table == old(table)[key := List(l)] && Grows(old(mem.View()), mem.View())
      ensures l in mem.lists && mem.owner[l] == For(key) && mem.lists[l] == val + old(Items(key))
    {
      hide Grows;
      GrowsNot(mem.View());
      var currentValue := GetListForModification(key);
      if old(OwnList(key)).None? {
        GrowsByOne(old(mem.View()), currentValue, mem.lists[currentValue], For(key));
      }
      ghost var m := mem.View();
      var joined := mem.Make(val + mem.lists[currentValue], For(key));
      GrowsByOne(m, joined, mem.lists[joined], For(key));
      GrowsOn(old(mem.View()), m, mem.View());
      table := table[key := List(joined)];
      l := joined;
    }

    method AppendUnique(key: Key, val: seq<string>) returns (ghost l: Ref)
      requires Linked() && mem.Valid() && AllThere(mem.lists, table)
      modifies this`table, mem
      ensures mem.Valid() && table == old(table)[key := List(l)]
      ensures Stored(old(mem.View()), mem.View(), l, WithNew(old(Items(key)), val), For(key), old(OwnList(key)))
      ensures l in mem.lists && AddsNew(old(Items(key)), val, mem.lists[l])
    {
      var currentValue := GetListForModification(key);
      mem.ExtendUnique(currentValue, val);
      l := currentValue;
    }

    /** The table's own list, which is changed in place. */
    ghost function OwnList(key: Key): Option<Ref>
      reads this`table
    {
      if key in table && table[key].List? then Some(table[key].list) else None
    }

    /** A copy of the table whose lists are new. */
    method DeepCopy(ghost n: nat) returns (t: Table)
      requires mem.Valid() && AllThere(mem.lists, table)
      modifies mem
      ensures mem.Valid() && Grows(old(mem.View()), mem.View())
      ensures Owned(mem.View(), this, n, t) && t.Keys == table.Keys
      ensures forall k :: k in t ==> ContentOf(mem.lists, t[k]) == ContentOf(old(mem.lists), table[k])
    {
      hide Grows, PartCopied, Copied, ContentOf, Owned;
      GrowsNot(mem.View());
      t := map[];
      var todo := table.Keys;
      NoneCopied(old(mem.lists), mem.View(), table, n);
      while todo != {}
        invariant mem.Valid() && Grows(old(mem.View()), mem.View())
        invariant todo <= table.Keys && t.Keys == table.Keys - todo
        invariant PartCopied(old(mem.lists), mem.View(), table, t, n)
        decreases |todo|
      {
        var k :| k in todo;
        todo := todo - {k};
        ghost var m := mem.View();
        var copy := DeepCopyValue(table[k], k, n, old(mem.View()));
        GrowsOn(old(mem.View()), m, mem.View());
        OneCopied(old(mem.lists), m, mem.View(), table, t, k, copy, n);
        t := t[k := copy];
      }
      assert t.Keys == table.Keys;
      AllCopied(old(mem.lists), mem.View(), table, t, n);
    }

    ghost predicate PartCopied(lists: Lists, m: Mem, t: Table, c: Table, n: nat) {
      forall k :: k in c ==> k in t && Copied(lists, m, t[k], c[k], k, n)
    }

    lemma NoneCopied(lists: Lists, m: Mem, t: Table, n: nat)
      ensures PartCopied(lists, m, t, map[], n)
    {
    }

    lemma OneCopied(lists: Lists, m: Mem, now: Mem, t: Table, c: Table, k: Key, copy: Value, n: nat)
      requires PartCopied(lists, m, t, c, n) && Grows(m, now) && k in t && Copied(lists, now, t[k], copy, k, n)
      ensures PartCopied(lists, now, t, c[k := copy], n)
    {
    }

    lemma AllCopied(lists: Lists, m: Mem, t: Table, c: Table, n: nat)
      requires PartCopied(lists, m, t, c, n)
      ensures Owned(m, this, n, c) && forall k :: k in c ==>
        k in t && ContentOf(m.lists, c[k]) == ContentOf(lists, t[k])
    {
    }

    method DeepCopyValue(v: Value, ghost k: Key, ghost n: nat, ghost first: Mem) returns (c: Value)
      requires mem.Valid() && Grows(first, mem.View()) && first.lists.Keys == first.owner.Keys
      requires v.List? ==> v.list in first.lists
      modifies mem
      ensures mem.Valid() && Grows(old(mem.View()), mem.View()) && Copied(first.lists, mem.View(), v, c, k, n)
    {
      match v
      case Text(s) => c := Text(s);
      case List(l) =>
        ghost var m := mem.View();
        var copy := mem.Make(mem.lists[l], Owner(this, k, n));
        GrowsByOne(m, copy, mem.lists[copy], Owner(this, k, n));
        c := List(copy);
    }

    /** `c` has the content `v` had, in a list made for its own key. */
    ghost predicate Copied(lists: Lists, n: Mem, v: Value, c: Value, k: Key, level: nat) {
      ContentOf(n.lists, c) == ContentOf(lists, v) && (c.List? ==> OwnedAt(n, this, level, k, c.list))
    }

    /** The nearest environment that has something stashed. */
    ghost function Stasher(): (r: Env?)
      requires Linked()
      reads this, set e | e in above
      ensures r != null ==> (r == this || r in above) && r.undo.Some?
      decreases |above|
    {
      if undo.Some? then this
      else if parent == null then null
      else
        assert above == parent.above + [parent] && above[|above| - 1] == parent;
        parent.Stasher()
    }

    ghost predicate NothingStashed()
      requires Linked()
      reads this, set e | e in above
    {
      Stasher() == null || Stasher().undo.value == []
    }

    method FindStasher() returns (cur: Env?)
      requires Linked()
      ensures cur == Stasher()
      ensures cur != null ==> cur.undo.Some? && (cur == this || (undo.None? && cur in above))
    {
      cur := this;
      while cur != null && cur.undo.None?
        invariant cur != null ==> cur.Linked() && Stasher() == cur.Stasher()
        invariant cur == null ==> Stasher() == null
        invariant cur != null ==>
          cur == this || (undo.None? && cur in above && forall e :: e in cur.above ==> e in above)
        decreases if cur == null then 0 else |cur.above| + 1
      {
        assert cur.parent != null ==>
          cur.above == cur.parent.above + [cur.parent] && cur.above[|cur.above| - 1] == cur.parent;
        cur := cur.parent;
      }
    }

    /** From here on changes are made to a copy. */
    method Stash()
      requires Linked() && mem.Valid() && Sound(mem.View(), this, Fields())
      modifies this, mem
      ensures mem.Valid() && Grows(old(mem.View()), mem.View()) && Sound(mem.View(), this, Fields())
      ensures
        var l := LayerOf(old(mem.lists), old(Fields()));
        LayerOf(mem.lists, Fields()) == Layer(l.vals, [l.vals] + l.past)
    {
      ghost var m, r := mem.View(), Fields();
      var orig := Saved(table, undo);
      var tbl := DeepCopy(|pasts| + 1);
      var cur := FindStasher();
      var stack := (if cur == null then [] else cur.undo.value) + [orig];
      table, undo, pasts := tbl, Some(stack), [table] + pasts;
      StashedLayer(m, mem.View(), this, r, tbl, stack);
    }

    /** Takes the last table off the stack, the nearest ancestor's when there is none of its own. */
    method Revert() returns (raised: bool)
      requires Linked()
      modifies this, set e | e in above
      ensures raised <==> old(NothingStashed())
      ensures raised ==> table == old(table) && undo == old(undo)
      ensures !raised ==> Saved(table, undo) == old(Last(Stasher().undo.value))
      ensures raised || old(Stasher()) == this ==> forall e :: e in above && e != this ==> unchanged(e)
      ensures !raised && old(Stasher()) != this ==>
        old(Stasher()).undo == Some(old(Stasher().undo.value[..|Stasher().undo.value| - 1]))
      ensures !raised && old(pasts != []) ==> pasts == old(pasts)[1..]
    {
      var cur := FindStasher();
      if cur == null || cur.undo.value == [] {
        return true;
      }
      var top := Last(cur.undo.value);
      cur.undo := Some(cur.undo.value[..|cur.undo.value| - 1]);
      table, undo := top.table, top.undo;
      if pasts != [] {
        pasts := pasts[1..];
      }
      return false;
    }
  }

  /** List `l` now holds `q`: a list that was there, or a new one. */
  ghost predicate Stored(m: Mem, n: Mem, l: Ref, q: seq<string>, o: Owner, own: Option<Ref>) {
    && n.lists == m.lists[l := q]
    && (if own.Some? then l == own.value && n.owner == m.owner else l !in m.lists && n.owner == m.owner[l := o])
  }

  /** Nothing but new lists. */
  ghost predicate Grows(m: Mem, n: Mem) {
    forall r :: r in m.lists && r in m.owner ==>
      r in n.lists && r in n.owner && n.lists[r] == m.lists[r] && n.owner[r] == m.owner[r]
  }

  lemma GrowsNot(m: Mem)
    ensures Grows(m, m)
  {
  }

  lemma GrowsByOne(m: Mem, l: Ref, q: seq<string>, o: Owner)
    requires l !in m.lists
    ensures Grows(m, Mem(m.lists[l := q], m.owner[l := o]))
  {
  }

  lemma GrowsOn(a: Mem, b: Mem, c: Mem)
    requires Grows(a, b) && Grows(b, c)
    ensures Grows(a, c)
  {
  }

  lemma GrowsKeeps(m: Mem, n: Mem, e: Env, level: nat, t: Table)
    requires Grows(m, n) && Owned(m, e, level, t)
    ensures Owned(n, e, level, t) && ContentsOf(n.lists, t) == ContentsOf(m.lists, t)
    ensures forall k :: k in t ==> ContentOf(n.lists, t[k]) == ContentOf(m.lists, t[k])
  {
    forall k | k in t && t[k].List?
      ensures OwnedAt(n, e, level, k, t[k].list) && n.lists[t[k].list] == m.lists[t[k].list]
    {
      assert OwnedAt(m, e, level, k, t[k].list);
    }
  }

  lemma GrowsKeepsAll(m: Mem, n: Mem, e: Env, r: Rec)
    requires Grows(m, n) && Sound(m, e, r)
    ensures Sound(n, e, r) && LayerOf(n.lists, r) == LayerOf(m.lists, r)
  {
    GrowsKeeps(m, n, e, |r.pasts|, r.table);
    forall i | 0 <= i < |r.pasts|
      ensures Owned(n, e, |r.pasts| - 1 - i, r.pasts[i])
              && ContentsOf(n.lists, r.pasts[i]) == ContentsOf(m.lists, r.pasts[i])
    {
      GrowsKeeps(m, n, e, |r.pasts| - 1 - i, r.pasts[i]);
    }
  }

  lemma StashedLayer(m: Mem, n: Mem, e: Env, r: Rec, tbl: Table, stack: seq<Saved>)
    requires Grows(m, n) && Sound(m, e, r) && Owned(n, e, |r.pasts| + 1, tbl) && tbl.Keys == r.table.Keys
    requires forall k :: k in tbl ==> ContentOf(n.lists, tbl[k]) == ContentOf(m.lists, r.table[k])
    requires stack != [] && Last(stack) == Saved(r.table, r.undo)
    ensures
      var s, l := Rec(tbl, Some(stack), [r.table] + r.pasts), LayerOf(m.lists, r);
      Sound(n, e, s) && LayerOf(n.lists, s) == Layer(l.vals, [l.vals] + l.past)
  {
    GrowsKeepsAll(m, n, e, r);
    var q := [r.table] + r.pasts;
    assert q[1..] == r.pasts && forall i :: 0 < i < |q| ==> q[i] == r.pasts[i - 1];
    assert ContentsOf(n.lists, tbl) == ContentsOf(m.lists, r.table);
    assert LayerOf(n.lists, Rec(tbl, Some(stack), q)).past == [ContentsOf(n.lists, r.table)] + LayerOf(n.lists, r).past;
  }

  lemma RevertedLayer(m: Mem, e: Env, r: Rec)
    requires Sound(m, e, r) && r.pasts != []
    ensures r.undo.Some? && r.undo.value != [] && LayerOf(m.lists, r).past != []
    ensures
      var s, l := Rec(Last(r.undo.value).table, Last(r.undo.value).undo, r.pasts[1..]), LayerOf(m.lists, r);
      Sound(m, e, s) && LayerOf(m.lists, s) == Layer(l.past[0], l.past[1..])
  {
    var s := Rec(Last(r.undo.value).table, Last(r.undo.value).undo, r.pasts[1..]);
    assert Owned(m, e, |r.pasts| - 1, r.pasts[0]);
    assert LayerOf(m.lists, s).past == LayerOf(m.lists, r).past[1..];
  }

  /** The items and those of `val` not among them, each once. */
  function WithNew(q: seq<string>, val: seq<string>): seq<string> {
    if val == [] then q
    else
      var r, x := WithNew(q, val[..|val| - 1]), val[|val| - 1];
      if x in r then r else r + [x]
  }

  /** `x` comes first at `a`. */
  ghost predicate FirstAt(val: seq<string>, x: string, a: nat) {
    a < |val| && val[a] == x && x !in val[..a]
  }

  /** `r` is `q` with the items of `val` that were missing behind it: all of them and nothing else, each once, in
      the order in which they first come. */
  ghost predicate AddsNew(q: seq<string>, val: seq<string>, r: seq<string>) {
    && q <= r
    && (forall x :: x in r <==> x in q || x in val)
    && (forall i :: |q| <= i < |r| ==> r[i] !in r[..i])
    && (forall i, j, a, b :: |q| <= i < j < |r| && FirstAt(val, r[i], a) && FirstAt(val, r[j], b) ==> a < b)
  }

  lemma {:induction false} WithNewAdds(q: seq<string>, val: seq<string>)
    ensures AddsNew(q, val, WithNew(q, val))
    decreases |val|
  {
    if val != [] {
      var n, x := |val| - 1, val[|val| - 1];
      var init := val[..n];
      WithNewAdds(q, init);
      assert val == init + [x];
      var s, r := WithNew(q, init), WithNew(q, val);
      hide WithNew;
      forall y, a: nat | y in init
        ensures FirstAt(val, y, a) <==> FirstAt(init, y, a)
      {
        if a < n {
          assert val[..a] == init[..a];
        }
      }
      if x !in s {
        assert r == s + [x] && forall i :: 0 <= i < |s| ==> r[..i] == s[..i];
        assert r[..|s|] == s;
      }
    }
  }

  // --- whole families of environments

  ghost predicate Member(envs: set<Env>, m: Memory, e: Env)
    reads e, m
  {
    e.mem == m && e.Linked() && (e.parent != null ==> e.parent in envs) && Sound(m.View(), e, e.Fields())
  }

  /** Environments over the same lists, none of which two of them share. */
  ghost predicate Family(envs: set<Env>, m: Memory)
    reads envs, m
  {
    m.Valid() && forall e :: e in envs ==> Member(envs, m, e)
  }

  type World = map<Env, Layer>

  ghost function WorldOf(envs: set<Env>, m: Memory): World
    reads envs, m
  {
    map e | e in envs :: LayerOf(m.lists, e.Fields())
  }

  /** What looking a key up finds. */
  ghost function Seen(w: World, e: Env, key: Key): Option<Content>
    requires e.Linked()
    decreases |e.above|
  {
    if e in w && key in w[e].vals then Some(w[e].vals[key])
    else if e.parent == null then None else Seen(w, e.parent, key)
  }

  ghost function SeenItems(c: Option<Content>): seq<string> {
    if c.None? then [] else AsItems(c.value)
  }

  lemma {:induction false} LookupSees(envs: set<Env>, m: Memory, e: Env, key: Key)
    requires Family(envs, m) && e in envs && e.Linked()
    ensures ItemsOf(m.lists, e.Lookup(key)) == SeenItems(Seen(WorldOf(envs, m), e, key))
    decreases |e.above|
  {
    assert Member(envs, m, e);
    if key !in e.table && e.parent != null {
      LookupSees(envs, m, e.parent, key);
    }
  }

  datatype Op =
    | Append(key: Key, val: seq<string>) | Prepend(key: Key, val: seq<string>) | Unique(key: Key, val: seq<string>)
    | Put(key: Key, items: seq<string>) | PutText(key: Key, text: string) | Open | Close
  {
    predicate WritesList() {
      !Open? && !Close? && !PutText?
    }
  }

  /** What an operation makes of an environment; `seen` is what its key looked like. */
  function Effect(op: Op, l: Layer, seen: seq<string>): Layer {
    match op
    case Append(k, v) => l.(vals := l.vals[k := Words(seen + v)])
    case Prepend(k, v) => l.(vals := l.vals[k := Words(v + seen)])
    case Unique(k, v) => l.(vals := l.vals[k := Words(WithNew(seen, v))])
    case Put(k, q) => l.(vals := l.vals[k := Words(q)])
    case PutText(k, s) => l.(vals := l.vals[k := Word(s)])
    case Open => Layer(l.vals, [l.vals] + l.past)
    case Close => if l.past == [] then l else Layer(l.past[0], l.past[1..])
  }

  ghost function Outcome(w: World, e: Env, op: Op): World
    requires e.Linked() && e in w
  {
    w[e := Effect(op, w[e], if op.Open? || op.Close? then [] else SeenItems(Seen(w, e, op.key)))]
  }

  lemma SoundThere(m: Mem, e: Env, r: Rec)
    requires Sound(m, e, r)
    ensures AllThere(m.lists, r.table)
    ensures forall k :: k in r.table && r.table[k].List? ==> OwnedAt(m, e, |r.pasts|, k, r.table[k].list)
  {
  }

  lemma StoredTouches(m: Mem, n: Mem, e: Env, r: Rec, key: Key, l: Ref, q: seq<string>)
    requires m.lists.Keys == m.owner.Keys && Sound(m, e, r)
    requires Stored(m, n, l, q, Owner(e, key, |r.pasts|),
                    if key in r.table && r.table[key].List? then Some(r.table[key].list) else None)
    ensures Touches(m, n, Owner(e, key, |r.pasts|)) && OwnedAt(n, e, |r.pasts|, key, l) && n.lists[l] == q
  {
    SoundThere(m, e, r);
  }

  lemma GrowsTouches(m: Mem, n: Mem, o: Owner)
    requires Grows(m, n)
    ensures Touches(m, n, o)
  {
  }

  /** One environment has changed at one key; the lists touched were its own. */
  lemma Settled(m: Mem, n: Mem, e: Env, r: Rec, key: Key, l: Ref, others: map<Env, Rec>)
    requires Touches(m, n, Owner(e, key, |r.pasts|)) && OwnedAt(n, e, |r.pasts|, key, l) && Sound(m, e, r)
    requires forall f :: f in others ==> f != e && Sound(m, f, others[f])
    ensures
      var s := r.(table := r.table[key := List(l)]);
      Sound(n, e, s) && LayerOf(n.lists, s)
        == LayerOf(m.lists, r).(vals := LayerOf(m.lists, r).vals[key := Words(n.lists[l])])
    ensures forall f :: f in others ==>
      Sound(n, f, others[f]) && LayerOf(n.lists, others[f]) == LayerOf(m.lists, others[f])
  {
    OneKeyChanges(m, n, e, r, key, l);
    forall f | f in others
      ensures Sound(n, f, others[f]) && LayerOf(n.lists, others[f]) == LayerOf(m.lists, others[f])
    {
      OthersStay(m, n, Owner(e, key, |r.pasts|), f, others[f]);
    }
  }

  ghost function Others(envs: set<Env>, e: Env): map<Env, Rec>
    reads envs
  {
    map f | f in envs && f != e :: f.Fields()
  }

  ghost predicate Links(envs: set<Env>, m: Memory) {
    forall f :: f in envs ==> f.mem == m && f.Linked() && (f.parent != null ==> f.parent in envs)
  }

  lemma FamilyNow(envs: set<Env>, m: Memory, e: Env)
    requires Family(envs, m) && e in envs
    ensures m.Valid() && Links(envs, m) && e.mem == m && e.Linked() && Sound(m.View(), e, e.Fields())
    ensures WorldOf(envs, m).Keys == envs && Others(envs, e).Keys == envs - {e} && m.lists.Keys == m.owner.Keys
    ensures WorldOf(envs, m)[e] == LayerOf(m.lists, e.Fields())
    ensures forall f :: f in Others(envs, e) ==>
      Sound(m.View(), f, Others(envs, e)[f]) && WorldOf(envs, m)[f] == LayerOf(m.lists, Others(envs, e)[f])
  {
    assert forall f :: f in envs ==> Member(envs, m, f);
  }

  /** The others are as they were and `e` is sound: the family goes on, changed at `e` only. */
  lemma FamilyThen(envs: set<Env>, m: Memory, e: Env, others: map<Env, Rec>, w: World)
    requires m.Valid() && e in envs && others.Keys == envs - {e} && w.Keys == envs
    requires Links(envs, m) && Sound(m.View(), e, e.Fields())
    requires forall f :: f in others ==>
      f.Fields() == others[f] && Sound(m.View(), f, others[f]) && w[f] == LayerOf(m.lists, others[f])
    ensures Family(envs, m) && WorldOf(envs, m) == w[e := LayerOf(m.lists, e.Fields())]
  {
    forall f | f in envs
      ensures Member(envs, m, f) && (f != e ==> LayerOf(m.lists, f.Fields()) == w[f])
    {
      assert f != e ==> f in others;
    }
  }

  ghost function NewItems(op: Op, seen: seq<string>): seq<string>
    requires op.WritesList()
  {
    match op case Append(_, v) => seen + v case Prepend(_, v) => v + seen case Unique(_, v) => WithNew(seen, v)
      case Put(_, q) => q
  }

  /** The operations that leave a list at a key. */
  method Write(e: Env, op: Op) returns (ghost l: Ref)
    requires e.Linked() && e.mem.Valid() && Sound(e.mem.View(), e, e.Fields()) && op.WritesList()
    modifies e`table, e.mem
    ensures e.mem.Valid() && e.table == old(e.table)[op.key := List(l)]
    ensures Touches(old(e.mem.View()), e.mem.View(), e.For(op.key))
    ensures OwnedAt(e.mem.View(), e, |e.pasts|, op.key, l) && e.mem.lists[l] == NewItems(op, old(e.Items(op.key)))
  {
    hide Sound, Touches, Stored, Grows;
    ghost var m, r := e.mem.View(), e.Fields();
    SoundThere(m, e, r);
    match op
    case Append(k, v) =>
      l := e.AppendValue(k, v);
      StoredTouches(m, e.mem.View(), e, r, k, l, NewItems(op, old(e.Items(k))));
    case Prepend(k, v) =>
      l := e.PrependValue(k, v);
      GrowsTouches(m, e.mem.View(), Owner(e, k, |r.pasts|));
    case Unique(k, v) =>
      l := e.AppendUnique(k, v);
      StoredTouches(m, e.mem.View(), e, r, k, l, NewItems(op, old(e.Items(k))));
    case Put(k, q) =>
      var made := e.mem.Make(q, e.For(k));
      e.SetItem(k, List(made));
      GrowsByOne(m, made, q, Owner(e, k, |r.pasts|));
      GrowsTouches(m, e.mem.View(), Owner(e, k, |r.pasts|));
      l := made;
  }

  method DoWrite(e: Env, op: Op, ghost envs: set<Env>)
    requires Family(envs, e.mem) && e in envs && op.WritesList()
    modifies e, e.mem
    ensures Family(envs, e.mem) && WorldOf(envs, e.mem) == old(Outcome(WorldOf(envs, e.mem), e, op))
  {
    hide Family, Member, Sound, Touches, LayerOf, Seen, OwnedAt, Links, WorldOf;
    FamilyNow(envs, e.mem, e);
    LookupSees(envs, e.mem, e, op.key);
    ghost var m, r, others, w := e.mem.View(), e.Fields(), Others(envs, e), WorldOf(envs, e.mem);
    ghost var l := Write(e, op);
    Settled(m, e.mem.View(), e, r, op.key, l, others);
    FamilyThen(envs, e.mem, e, others, w);
  }

  lemma TextSettled(m: Mem, e: Env, r: Rec, key: Key, text: string)
    requires Sound(m, e, r)
    ensures
      var s := r.(table := r.table[key := Text(text)]);
      Sound(m, e, s) && LayerOf(m.lists, s) == LayerOf(m.lists, r).(vals := LayerOf(m.lists, r).vals[key := Word(text)])
  {
    assert ContentsOf(m.lists, r.table[key := Text(text)]) == ContentsOf(m.lists, r.table)[key := Word(text)];
  }

  /** A text takes the place of whatever the table has at the key. */
  method DoPutText(e: Env, op: Op, ghost envs: set<Env>)
    requires Family(envs, e.mem) && e in envs && op.PutText?
    modifies e`table
    ensures Family(envs, e.mem) && WorldOf(envs, e.mem) == old(Outcome(WorldOf(envs, e.mem), e, op))
  {
    hide Family, Member, Sound, LayerOf, Seen, Links, WorldOf;
    FamilyNow(envs, e.mem, e);
    ghost var others, w := Others(envs, e), WorldOf(envs, e.mem);
    TextSettled(e.mem.View(), e, e.Fields(), op.key, op.text);
    e.SetItem(op.key, Text(op.text));
    FamilyThen(envs, e.mem, e, others, w);
  }

  method DoStash(e: Env, ghost envs: set<Env>)
    requires Family(envs, e.mem) && e in envs
    modifies e, e.mem
    ensures Family(envs, e.mem) && WorldOf(envs, e.mem) == old(Outcome(WorldOf(envs, e.mem), e, Open))
  {
    hide Family, Member, Sound, Grows, LayerOf, Links, WorldOf;
    FamilyNow(envs, e.mem, e);
    ghost var m, others, w := e.mem.View(), Others(envs, e), WorldOf(envs, e.mem);
    e.Stash();
    forall f | f in others
      ensures Sound(e.mem.View(), f, others[f]) && LayerOf(e.mem.lists, others[f]) == w[f]
    {
      GrowsKeepsAll(m, e.mem.View(), f, others[f]);
    }
    FamilyThen(envs, e.mem, e, others, w);
  }

  /** Undoes the last stash of `e` itself. */
  method DoRevert(e: Env, ghost envs: set<Env>)
    requires Family(envs, e.mem) && e in envs && e.pasts != []
    modifies e, set x | x in e.above
    ensures Family(envs, e.mem) && WorldOf(envs, e.mem) == old(Outcome(WorldOf(envs, e.mem), e, Close))
  {
    hide Family, Member, Sound, LayerOf, Links, WorldOf;
    FamilyNow(envs, e.mem, e);
    ghost var others, w := Others(envs, e), WorldOf(envs, e.mem);
    RevertedLayer(e.mem.View(), e, e.Fields());
    var raised := e.Revert();
    FamilyThen(envs, e.mem, e, others, w);
  }

  /** An operation on one environment has its effect there and nowhere else. */
  method Do(e: Env, op: Op, ghost envs: set<Env>)
    requires Family(envs, e.mem) && e in envs && (op.Close? ==> e.pasts != [])
    modifies e, e.mem, set x | x in e.above
    ensures Family(envs, e.mem) && WorldOf(envs, e.mem) == old(Outcome(WorldOf(envs, e.mem), e, op))
  {
    match op
    case Open => DoStash(e, envs);
    case Close => DoRevert(e, envs);
    case PutText(_, _) => DoPutText(e, op, envs);
    case _ => DoWrite(e, op, envs);
  }

  /** A derived environment joins the family and looks like its parent. */
  lemma DerivedJoins(envs: set<Env>, m: Memory, n: Env, key: Key)
    requires Family(envs, m) && n.parent != null && n.parent in envs && n !in envs
    requires n.mem == m && n.above == n.parent.above + [n.parent] && n.Fields() == Rec(map[], None, [])
    ensures Family(envs + {n}, m) && n.Linked()
    ensures Seen(WorldOf(envs + {n}, m), n, key) == Seen(WorldOf(envs + {n}, m), n.parent, key)
  {
    assert Member(envs, m, n.parent);
    assert Member(envs + {n}, m, n);
    forall e | e in envs
      ensures Member(envs + {n}, m, e)
    {
      assert Member(envs, m, e);
    }
  }

  // --- sequences of operations

  ghost function Run(w: World, e: Env, ops: seq<Op>): World
    requires e.Linked() && e in w
    decreases |ops|
  {
    if ops == [] then w else Run(Outcome(w, e, ops[0]), e, ops[1..])
  }

  /** No revert without a stash of its own; `depth` are open at the start. */
  predicate Possible(ops: seq<Op>, depth: nat)
    decreases |ops|
  {
    ops == [] ||
      match ops[0]
      case Open => Possible(ops[1..], depth + 1)
      case Close => depth > 0 && Possible(ops[1..], depth - 1)
      case _ => Possible(ops[1..], depth)
  }

  method RunOps(e: Env, ops: seq<Op>, ghost envs: set<Env>)
    requires Family(envs, e.mem) && e in envs && Possible(ops, |e.pasts|)
    modifies e, e.mem, set x | x in e.above
    ensures Family(envs, e.mem) && WorldOf(envs, e.mem) == old(Run(WorldOf(envs, e.mem), e, ops))
    decreases |ops|
  {
    if ops != [] {
      hide Outcome;
      ghost var depth := |e.pasts|;
      PastLength(envs, e);
      Do(e, ops[0], envs);
      PastLength(envs, e);
      DepthAfter(old(WorldOf(envs, e.mem)), e, ops[0]);
      RunOps(e, ops[1..], envs);
    }
  }

  lemma PastLength(envs: set<Env>, e: Env)
    requires Family(envs, e.mem) && e in envs
    ensures e in WorldOf(envs, e.mem) && |WorldOf(envs, e.mem)[e].past| == |e.pasts|
  {
  }

  lemma DepthAfter(w: World, e: Env, op: Op)
    requires e.Linked() && e in w
    ensures |Outcome(w, e, op)[e].past| ==
      match op case Open => |w[e].past| + 1 case Close => (if w[e].past == [] then 0 else |w[e].past| - 1)
        case _ => |w[e].past|
  {
  }

  /** Whatever is done to `e`, environments that do not inherit from it look the same: its ancestors, its
      siblings and all that belongs to them. */
  lemma {:induction false} Isolation(w: World, e: Env, ops: seq<Op>, f: Env, key: Key)
    requires e.Linked() && e in w && f.Linked() && f != e && e !in f.above
    ensures Seen(Run(w, e, ops), f, key) == Seen(w, f, key)
    decreases |ops|
  {
    if ops != [] {
      var x := Outcome(w, e, ops[0]);
      SeenElsewhere(w, x, e, f, key);
      Isolation(x, e, ops[1..], f, key);
    }
  }

  lemma {:induction false} SeenElsewhere(w: World, x: World, e: Env, f: Env, key: Key)
    requires f.Linked() && f != e && e !in f.above && forall g :: g != e ==>
      (g in w <==> g in x) && (g in w ==> x[g] == w[g])
    ensures Seen(x, f, key) == Seen(w, f, key)
    decreases |f.above|
  {
    if f.parent != null {
      assert f.above == f.parent.above + [f.parent] && f.above[|f.above| - 1] == f.parent;
      SeenElsewhere(w, x, e, f.parent, key);
    }
  }

  lemma {:induction false} RunAppend(w: World, e: Env, a: seq<Op>, b: seq<Op>)
    requires e.Linked() && e in w
    ensures e in Run(w, e, a) && Run(w, e, a + b) == Run(Run(w, e, a), e, b)
    decreases |a|
  {
    if a == [] {
      assert [] + b == b;
    } else {
      assert (a + b)[0] == a[0] && (a + b)[1..] == a[1..] + b;
      RunAppend(Outcome(w, e, a[0]), e, a[1..], b);
    }
  }

  function Depth(ops: seq<Op>): int
    decreases |ops|
  {
    if ops == [] then 0
    else (match ops[0] case Open => 1 case Close => -1 case _ => 0) + Depth(ops[1..])
  }

  /** Operations that never revert further than they stashed leave the tables stashed before alone. */
  lemma {:induction false} BaseStays(w: World, e: Env, ops: seq<Op>, own: seq<Contents>, base: seq<Contents>)
    requires e.Linked() && e in w && w[e].past == own + base && Possible(ops, |own|)
    ensures
      var x := Run(w, e, ops);
      && e in x && |x[e].past| == |own| + Depth(ops) + |base| && |own| + Depth(ops) >= 0
      && x[e].past[|own| + Depth(ops)..] == base
      && forall g :: g != e ==> (g in x <==> g in w) && (g in w ==> x[g] == w[g])
    decreases |ops|
  {
    if ops != [] {
      var y := Outcome(w, e, ops[0]);
      match ops[0]
      case Open =>
        assert [w[e].vals] + (own + base) == [w[e].vals] + own + base;
        BaseStays(y, e, ops[1..], [w[e].vals] + own, base);
      case Close =>
        assert (own + base)[1..] == own[1..] + base;
        BaseStays(y, e, ops[1..], own[1..], base);
      case _ => BaseStays(y, e, ops[1..], own, base);
    } else {
      assert (own + base)[|own|..] == base;
    }
  }

  /** A stash and its revert around operations that balance restore everything. */
  lemma StashRevert(w: World, e: Env, ops: seq<Op>)
    requires e.Linked() && e in w && Possible(ops, 0) && Depth(ops) == 0
    ensures Run(w, e, [Open] + ops + [Close]) == w
  {
    var a := Outcome(w, e, Open);
    var base := a[e].past;
    assert [Open] + ops + [Close] == [Open] + (ops + [Close]);
    assert ([Open] + (ops + [Close]))[1..] == ops + [Close];
    RunAppend(a, e, ops, [Close]);
    assert [] + base == base;
    BaseStays(a, e, ops, [], base);
    var b := Run(a, e, ops);
    assert b[e].past[0..] == b[e].past;
    CloseRestores(w, a, b, e);
    RunOne(b, e, Close);
  }

  lemma RunOne(w: World, e: Env, op: Op)
    requires e.Linked() && e in w
    ensures Run(w, e, [op]) == Outcome(w, e, op)
  {
    assert [op][1..] == [];
  }

  lemma CloseRestores(w: World, a: World, b: World, e: Env)
    requires e.Linked() && e in w && a == Outcome(w, e, Open) && e in b && b[e].past == a[e].past
    requires forall g :: g != e ==> (g in b <==> g in a) && (g in a ==> b[g] == a[g])
    ensures Outcome(b, e, Close) == w
  {
    assert a[e].past[1..] == w[e].past;
    assert Outcome(b, e, Close)[e] == w[e];
  }

  // --- why the lists must not be shared

  /** With one list put into two environments, appending to it through one shows through the other. */
  method SharedListLeaks(m: Memory, q: seq<string>, k: Key, x: string) returns (a: Env, b: Env)
    requires m.Valid()
    modifies m
    ensures fresh(a) && fresh(b) && a != b && a.parent == null && b.parent == null
    ensures ContentsOf(m.lists, b.table) == map[k := Words(q + [x])]
  {
    a := new Env(m);
    b := new Env(m);
    var l := m.Make(q, Owner(a, k, 0));
    a.SetItem(k, List(l));
    b.SetItem(k, List(l));
    assert a.Lookup(k) == Some(List(l));
    ghost var r := a.AppendValue(k, [x]);
    assert r == l && b.table == map[k := List(l)];
  }
}
