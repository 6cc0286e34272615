/** Builds that run a command on the output of a failed one, for any script: what they leave behind as soon as one
    task feeds another. */
module Careless {
  import opened Basics
  import opened TaskOrder
  import opened Schedule
  import opened ScheduleProofs
  import opened Signatures
  import opened Incremental
  import opened Replay
  import opened Stale

  // --- a change of variables

  /** The scripts differ in what their tasks are sensitive to, and in nothing else. */
  ghost predicate VarsOnly(a: Script, b: Script) {
    b.info == a.info && b.built == a.built && b.vars.Keys == a.vars.Keys
  }

  /** And that for the task `q` alone. */
  ghost predicate Rewired(a: Script, b: Script, q: Task) {
    && VarsOnly(a, b) && q in a.info && q in a.vars && b.vars[q] != a.vars[q]
    && forall t :: t in a.vars && t != q ==> b.vars[t] == a.vars[t]
  }

  function Rewire(a: Script, q: Task): Script
    requires q in a.vars
  {
    a.(vars := a.vars[q := a.vars[q] + "!"])
  }

  lemma RewireIs(a: Script, q: Task)
    requires q in a.info && q in a.vars
    ensures Rewired(a, Rewire(a, q), q)
  {
    Longer(a.vars[q]);
  }

  lemma SameShape(a: Script, b: Script, t: Task)
    requires VarsOnly(a, b)
    ensures (a.OneOutput(t) <==> b.OneOutput(t)) && (a.OneOutput(t) ==> a.Out(t) == b.Out(t))
    ensures t in a.info ==> a.Deps(t) == b.Deps(t) && a.UidOf(t) == b.UidOf(t)
    ensures forall n :: a.Makes(t, n) <==> b.Makes(t, n)
  {
  }

  lemma FeedsToo(a: Script, b: Script, q: Task, t: Task)
    requires VarsOnly(a, b)
    ensures Feeds(a, q, t) <==> Feeds(b, q, t)
  {
    SameShape(a, b, q);
    SameShape(a, b, t);
    hide Script.OneOutput, Script.Out, Script.Deps;
  }

  lemma ValidToo(a: Script, b: Script)
    requires VarsOnly(a, b) && a.Valid()
    ensures b.Valid()
  {
    forall t
      ensures (a.OneOutput(t) <==> b.OneOutput(t)) && (a.OneOutput(t) ==> a.Out(t) == b.Out(t))
      ensures t in a.info ==> a.Deps(t) == b.Deps(t)
      ensures forall n :: a.Makes(t, n) <==> b.Makes(t, n)
    {
      SameShape(a, b, t);
    }
    hide Script.OneOutput, Script.Out, Script.Deps, Script.Makes;
  }

  /** Nothing changes but signatures. */
  lemma VarsOnlyKeeps(a: Script, b: Script, order: seq<Task>, files: map<Node, Content>)
    requires VarsOnly(a, b) && Buildable(a, order) && Sourced(a, files)
    ensures Buildable(b, order) && Sourced(b, files)
  {
    ValidToo(a, b);
    hide Script.Valid, Feeds, Script.Deps;
    forall i | 0 <= i < |order|
      ensures FedBy(b, order, i)
    {
      assert FedBy(a, order, i);
      forall q | Feeds(b, q, order[i])
        ensures q in order[..i]
      {
        FeedsToo(a, b, q, order[i]);
      }
    }
    forall t | t in b.info
      ensures HasSources(b, files, t)
    {
      assert HasSources(a, files, t);
      SameShape(a, b, t);
    }
  }

  lemma RewiredSigs(a: Script, b: Script, q: Task, s: Store, t: Task)
    requires Rewired(a, b, q) && HasInputs(a, s, t)
    ensures HasInputs(b, s, t) && (TaskSig(b, s, t) == TaskSig(a, s, t) <==> t != q)
  {
    assert a.Deps(t) == b.Deps(t);
    var deps := a.Deps(t);
    assert forall d :: HasSig(a, s, d) == HasSig(b, s, d);
    assert seq(|deps|, i requires 0 <= i < |deps| => SigNow(a, s, deps[i]))
        == seq(|deps|, i requires 0 <= i < |deps| => SigNow(b, s, deps[i]));
  }

  lemma SameUids(a: Script, b: Script, n: Node, u: Uid)
    requires VarsOnly(a, b)
    ensures Under(a, n, u) <==> Under(b, n, u)
  {
    if Under(a, n, u) {
      var t :| a.Makes(t, n) && a.UidOf(t) == u;
      assert b.Makes(t, n) && b.UidOf(t) == u;
    }
    if Under(b, n, u) {
      var t :| b.Makes(t, n) && b.UidOf(t) == u;
      assert a.Makes(t, n) && a.UidOf(t) == u;
    }
  }

  // --- signatures from the sources alone

  lemma {:induction false} SpecsMade(sc: Script, order: seq<Task>, files: map<Node, Content>, k: nat, n: Node)
    requires Buildable(sc, order) && Sourced(sc, files) && k <= |order| && n in Specs(sc, order, files, k)
    ensures exists z :: 0 <= z < k && sc.Makes(order[z], n)
    decreases k
  {
    hide Sourced, Buildable, Specs, Script.Makes;
    if k > 0 {
      SpecsGrow(sc, order, files, k - 1);
      if n == sc.Out(order[k - 1]) {
        OutMade(sc, order[k - 1]);
      } else {
        SpecsMade(sc, order, files, k - 1, n);
      }
    } else {
      NoSpecs(sc, order, files);
    }
  }

  lemma OutMade(sc: Script, t: Task)
    requires sc.OneOutput(t)
    ensures sc.Makes(t, sc.Out(t))
  {
  }

  lemma NoSpecs(sc: Script, order: seq<Task>, files: map<Node, Content>)
    ensures Specs(sc, order, files, 0) == map[]
  {
  }

  /** The signatures of earlier outputs do not change. */
  lemma EarlierSpec(sc: Script, order: seq<Task>, files: map<Node, Content>, j: nat, k: nat, n: Node)
    requires Buildable(sc, order) && Sourced(sc, files) && j <= k <= |order| && n in Specs(sc, order, files, j)
    ensures n in Specs(sc, order, files, k) && Specs(sc, order, files, k)[n] == Specs(sc, order, files, j)[n]
  {
    SpecsMade(sc, order, files, j, n);
    var z :| 0 <= z < j && sc.Makes(order[z], n);
    hide Specs, Buildable, Sourced, SpecOf;
    SpecStays(sc, order, files, z, j);
    SpecStays(sc, order, files, z, k);
  }

  ghost predicate HasSpecs(sc: Script, order: seq<Task>, files: map<Node, Content>, k: nat, s: Store)
    requires k <= |order|
  {
    forall n :: n in Specs(sc, order, files, k) ==> HasSpec(sc, order, files, k, s, n)
  }

  lemma FewerSpecs(sc: Script, order: seq<Task>, files: map<Node, Content>, j: nat, k: nat, s: Store)
    requires Buildable(sc, order) && Sourced(sc, files) && j <= k <= |order| && HasSpecs(sc, order, files, k, s)
    ensures HasSpecs(sc, order, files, j, s)
  {
    hide Specs, Buildable, Sourced;
    forall n | n in Specs(sc, order, files, j)
      ensures HasSpec(sc, order, files, j, s, n)
    {
      EarlierSpec(sc, order, files, j, k, n);
      assert HasSpec(sc, order, files, k, s, n);
    }
  }

  /** A task whose inputs have these signatures has the one that follows from them. */
  lemma SigHolds(sc: Script, order: seq<Task>, files: map<Node, Content>, j: nat, k: nat, s: Store)
    requires Buildable(sc, order) && Sourced(sc, files) && j <= k && j < |order| && k <= |order|
    requires HasSpecs(sc, order, files, k, s) && SameSources(sc, files, s.files)
    ensures sc.OneOutput(order[j]) && HasInputs(sc, SpecStore(sc, order, files, j), order[j])
            && HasInputs(sc, s, order[j])
    ensures TaskSig(sc, s, order[j]) == SpecOf(sc, order, files, j)
  {
    SpecsGrow(sc, order, files, j);
    FewerSpecs(sc, order, files, j, k, s);
    var t := order[j];
    assert t in order && t in sc.info && t in sc.vars;
    hide Specs, Buildable, Sourced, SameSources;
    forall d | d in sc.Deps(t)
      ensures HasSig(sc, s, d) && SigNow(sc, s, d) == SigNow(sc, SpecStore(sc, order, files, j), d)
    {
      DepSpec(sc, order, files, j, s, t, d);
    }
  }

  // --- the first build: all that comes before the fed task

  /** What is stored when the tasks before place `k` have been built. */
  ghost predicate Ledger(f: Tool, sc: Script, order: seq<Task>, files: map<Node, Content>, k: nat, s: Store)
    requires k < |order|
  {
    && Stocked(sc.built, s) && SameSources(sc, files, s.files) && Trusty(f, sc.built, s, {})
    && HasSpecs(sc, order, files, k, s) && AllStored(sc, order, files, k, s, order[..k])
    && sc.OneOutput(order[k]) && sc.UidOf(order[k]) !in s.sigs
  }

  lemma FirstPart(f: Tool, a: Script, order: seq<Task>, files: map<Node, Content>, k: nat) returns (s: Session)
    requires Buildable(a, order) && Sourced(a, files) && k < |order| && a.OneOutput(order[k])
    ensures s.sc == a && s.Valid(f) && SoundRuns(a, s.log) && |s.states| == |s.log| + 1 && s.Before().sigs == map[]
    ensures Ledger(f, a, order, files, k, s.After())
  {
    hide Upto, Buildable, Sourced, Stretch, SoundRuns, Stocked, SameSources, Trusty, Session.Valid, AllClean;
    var b := Store(map[], map[], files);
    EmptyStore(f, a.built, b);
    SourcesSame(a, files);
    var s0 := StartsUpto(f, a, order, files, b);
    s := BuildOn(f, a, order, files, 0, k, s0);
    EarlierClean(a, order, k);
    FirstLedger(f, a, order, files, k, s, b);
  }

  lemma FirstLedger(f: Tool, a: Script, order: seq<Task>, files: map<Node, Content>, k: nat, s: Session, b: Store)
    requires k < |order| && Upto(f, a, order, files, k, s) && s.states != [] && a.OneOutput(order[k]) && b.sigs == map[]
    requires Stretch(f, a, order, files, 0, k, b, Now(s).store) && Trusty(f, a.built, b, {})
             && AllClean(a, order[..k], {})
    requires a.Out(order[k]) in a.built && !MadeBy(a, order[..k], a.Out(order[k]))
    ensures s.sc == a && s.Valid(f) && |s.states| == |s.log| + 1 && Ledger(f, a, order, files, k, s.After())
  {
    assert order[0..k] == order[..k];
    hide Specs, Trusty, AllClean, MadeBy, AllStored, SameSources;
    assert Untouched(b, Now(s).store, a.Out(order[k]));
    assert OutputOf(a.UidOf(order[k]), a.Out(order[k]));
    assert SameKey(b.sigs, Now(s).store.sigs, a.UidOf(order[k]));
  }

  // --- the second build: one task fails, and another is run on what it leaves

  /** The variables of the task in place `i` are changed from script `a` to `b`; there is a later task in place
      `k`. */
  datatype Change = Change(a: Script, b: Script, order: seq<Task>, files: map<Node, Content>, i: nat, k: nat)
  {
    ghost predicate Valid() {
      i < k < |order| && Buildable(a, order) && Sourced(a, files) && Rewired(a, b, order[i])
    }
  }

  /** The task in place `j` in either script. */
  lemma TaskAt(c: Change, j: nat)
    requires c.Valid() && j < |c.order|
    ensures var t := c.order[j];
      && t in c.a.info && t in c.a.vars && t in c.b.vars && c.a.OneOutput(t) && c.b.OneOutput(t)
      && c.a.Out(t) == c.b.Out(t) && c.a.UidOf(t) == c.b.UidOf(t) && c.a.Deps(t) == c.b.Deps(t)
      && c.a.Out(t) in c.a.built && c.a.built == c.b.built && c.a.Valid()
      && (j != c.i ==> t != c.order[c.i])
  {
    assert c.order[j] in c.order;
    hide Sourced, FedBy;
  }

  /** The first `j` tasks have been looked at: all are skipped, but for that in place `i`, which fails and leaves
      `x`. */
  ghost predicate Passing(f: Tool, c: Change, base: Store, x: Content, j: nat, s: Session)
    requires c.i < |c.order| && j <= |c.order|
  {
    var b, q := c.b, c.order[c.i];
    && Going(f, s) && s.sc == b && s.states != [] && s.states[0] == Build(base, map[], map[]) && b.OneOutput(q)
    && (forall t :: t in c.order[..j] ==> StageOf(s.log, t).Done?)
    && (forall t :: t in c.order[j..] ==> StageOf(s.log, t) == Idle)
    && (forall n :: n in b.built ==> SameSig(base, Now(s).store, n))
    && Now(s).store.sigs == (if j <= c.i then base.sigs else base.sigs - {b.UidOf(q)})
    && Now(s).store.files == (if j <= c.i then base.files else base.files[b.Out(q) := x])
  }

  lemma PassStarts(f: Tool, c: Change, base: Store, x: Content) returns (s: Session)
    requires c.Valid() && Stocked(c.a.built, base)
    ensures Passing(f, c, base, x, 0, s)
  {
    TaskAt(c, c.i);
    VarsOnlyKeeps(c.a, c.b, c.order, c.files);
    hide Sourced, FedBy, Rewired;
    s := Begins(f, c.b, base);
  }

  lemma PassSources(f: Tool, c: Change, base: Store, x: Content, j: nat, s: Session)
    requires c.Valid() && j <= |c.order| && Ledger(f, c.a, c.order, c.files, c.k, base) && Passing(f, c, base, x, j, s)
    ensures HasSpecs(c.a, c.order, c.files, c.k, Now(s).store) && SameSources(c.a, c.files, Now(s).store.files)
  {
    TaskAt(c, c.i);
    PassIs(f, c, base, x, j, s);
    hide Passing, Trusty, Stocked, AllStored, Specs, Buildable, Sourced, Rewired, Script.Valid, Script.Out,
         Script.UidOf;
    var r := Now(s).store;
    forall n | n in Specs(c.a, c.order, c.files, c.k)
      ensures HasSpec(c.a, c.order, c.files, c.k, r, n)
    {
      SpecsBuilt(c.a, c.order, c.files, c.k, n);
      assert SameSig(base, r, n) && HasSpec(c.a, c.order, c.files, c.k, base, n);
    }
    forall n | n !in c.a.built
      ensures SameFile(c.files, r.files, n)
    {
      assert SameFile(c.files, base.files, n);
    }
  }

  lemma FeedersAt(f: Tool, c: Change, base: Store, x: Content, j: nat, s: Session)
    requires c.Valid() && j < |c.order| && Passing(f, c, base, x, j, s)
    ensures FeedersDone(c.b, s.log, c.order[j]) && StageOf(s.log, c.order[j]) == Idle
  {
    assert FedBy(c.a, c.order, j) && c.order[j..][0] == c.order[j];
    hide Going, Buildable, Sourced, SameSig, Feeds;
    forall t | Feeds(c.b, t, c.order[j])
      ensures StageOf(s.log, t).Done?
    {
      FeedsToo(c.a, c.b, t, c.order[j]);
    }
  }

  /** The next task can be looked at, and has the signature it had in the script `a`, or not if it is the one
      whose variables have changed. */
  lemma PassDue(f: Tool, c: Change, base: Store, x: Content, j: nat, s: Session)
    requires c.Valid() && j <= c.k && Ledger(f, c.a, c.order, c.files, c.k, base) && Passing(f, c, base, x, j, s)
    ensures Due(f, s, c.order[j]) && HasInputs(c.a, SpecStore(c.a, c.order, c.files, j), c.order[j])
    ensures HasInputs(c.b, Now(s).store, c.order[j])
    ensures TaskSig(c.b, Now(s).store, c.order[j]) == SpecOf(c.a, c.order, c.files, j) <==> j != c.i
  {
    PassSources(f, c, base, x, j, s);
    FeedersAt(f, c, base, x, j, s);
    TaskAt(c, j);
    hide Going, Ledger, Specs, SpecOf, TaskSig, SpecStore, HasSpecs, SameSources, Buildable, Sourced, Rewired,
         HasInputs, FeedersDone;
    SigHolds(c.a, c.order, c.files, j, c.k, Now(s).store);
    RewiredSigs(c.a, c.b, c.order[c.i], Now(s).store, c.order[j]);
  }

  /** What the first build has stored for the task in place `j`. */
  lemma LedgerAt(f: Tool, c: Change, base: Store, j: nat)
    requires c.Valid() && j < c.k && Ledger(f, c.a, c.order, c.files, c.k, base)
    ensures var t := c.order[j];
      && c.a.OneOutput(t) && HasInputs(c.a, SpecStore(c.a, c.order, c.files, j), t)
      && c.a.UidOf(t) in base.sigs && base.sigs[c.a.UidOf(t)] == SpecOf(c.a, c.order, c.files, j)
      && c.a.Out(t) in base.nodeSig && base.nodeSig[c.a.Out(t)] == SpecOf(c.a, c.order, c.files, j)
  {
    SpecStays(c.a, c.order, c.files, j, c.k);
    hide Going, Trusty, Stocked, Specs, SpecOf, HasInputs, Buildable, Sourced, SameSources, Rewired;
    assert c.order[..c.k][j] == c.order[j];
    assert Stores(c.a, c.order, c.files, c.k, base, c.order[j]);
    assert HasSpec(c.a, c.order, c.files, c.k, base, c.a.Out(c.order[j]));
  }

  lemma PassIs(f: Tool, c: Change, base: Store, x: Content, j: nat, s: Session)
    requires c.i < |c.order| && j <= |c.order| && Passing(f, c, base, x, j, s)
    ensures s.sc == c.b && s.states != [] && s.states[0] == Build(base, map[], map[]) && c.b.OneOutput(c.order[c.i])
    ensures forall t :: t in c.order[..j] ==> StageOf(s.log, t).Done?
    ensures forall t :: t in c.order[j..] ==> StageOf(s.log, t) == Idle
    ensures forall n :: n in c.b.built ==> SameSig(base, Now(s).store, n)
    ensures Now(s).store.sigs == (if j <= c.i then base.sigs else base.sigs - {c.b.UidOf(c.order[c.i])})
    ensures Now(s).store.files == (if j <= c.i then base.files else base.files[c.b.Out(c.order[c.i]) := x])
  {
    hide Going, SameSig;
  }

  lemma CurrentIs(sc: Script, s: Store, t: Task, g: Sig)
    requires HasInputs(sc, s, t) && sc.OneOutput(t) && sc.UidOf(t) in s.sigs && s.sigs[sc.UidOf(t)] == g
    requires sc.Out(t) in s.nodeSig && s.nodeSig[sc.Out(t)] == g
    ensures Current(sc, s, t) <==> TaskSig(sc, s, t) == g
  {
    hide TaskSig, HasInputs;
  }

  /** What the first build has stored for the task in place `j` is still there when its turn comes. */
  lemma StillStored(f: Tool, c: Change, base: Store, x: Content, j: nat, s: Session, g: Sig)
    requires c.Valid() && j < c.k && Passing(f, c, base, x, j, s)
    requires var t := c.order[j];
      && c.a.OneOutput(t) && c.a.UidOf(t) in base.sigs && base.sigs[c.a.UidOf(t)] == g
      && c.a.Out(t) in base.nodeSig && base.nodeSig[c.a.Out(t)] == g
    ensures var t := c.order[j];
      && c.b.OneOutput(t) && s.states != [] && c.b.UidOf(t) in Now(s).store.sigs && Now(s).store.sigs[c.b.UidOf(t)] == g
      && c.b.Out(t) in Now(s).store.nodeSig && Now(s).store.nodeSig[c.b.Out(t)] == g
  {
    PassIs(f, c, base, x, j, s);
    TaskAt(c, j);
    TaskAt(c, c.i);
    if j != c.i {
      UidsDiffer(c.a, c.order[j], c.order[c.i]);
    }
    hide Passing, Change.Valid, Script.Valid, Script.UidOf, Script.Out;
    assert SameSig(base, Now(s).store, c.b.Out(c.order[j]));
  }

  /** The next task is current, unless it is the one whose variables have changed. */
  lemma PassCurrent(f: Tool, c: Change, base: Store, x: Content, j: nat, s: Session)
    requires c.Valid() && j < c.k && Ledger(f, c.a, c.order, c.files, c.k, base) && Passing(f, c, base, x, j, s)
    ensures Due(f, s, c.order[j]) && HasInputs(c.b, Now(s).store, c.order[j]) && c.b.OneOutput(c.order[j])
    ensures Current(c.b, Now(s).store, c.order[j]) <==> j != c.i
  {
    assert c.i < c.k < |c.order|;
    hide *;
    PassDue(f, c, base, x, j, s);
    LedgerAt(f, c, base, j);
    StillStored(f, c, base, x, j, s, SpecOf(c.a, c.order, c.files, j));
    CurrentIs(c.b, Now(s).store, c.order[j], SpecOf(c.a, c.order, c.files, j));
  }

  lemma DoneNext(order: seq<Task>, j: nat, s: Session, r: Session)
    requires NoDup(order) && j < |order| && StageKept(s, r, order[j]) && StageOf(r.log, order[j]).Done?
    requires forall t :: t in order[..j] ==> StageOf(s.log, t).Done?
    requires forall t :: t in order[j..] ==> StageOf(s.log, t) == Idle
    ensures forall t :: t in order[..j + 1] ==> StageOf(r.log, t).Done?
    ensures forall t :: t in order[j + 1..] ==> StageOf(r.log, t) == Idle
  {
    assert order[..j + 1] == order[..j] + [order[j]] && order[j..] == [order[j]] + order[j + 1..];
    forall t | t in order[j + 1..]
      ensures t != order[j] && t in order[j..]
    {
      var z :| j + 1 <= z < |order| && order[z] == t;
    }
  }

  lemma SigsTwice(built: set<Node>, base: Store, a: Store, b: Store, n: Node)
    requires (forall m :: m in built ==> SameSig(base, a, m)) && SigsKept(built, a, b, n) && SameSig(a, b, n)
    ensures forall m :: m in built ==> SameSig(base, b, m)
  {
    forall m | m in built
      ensures SameSig(base, b, m)
    {
      assert SameSig(base, a, m) && SameSig(a, b, m);
    }
  }

  lemma LaterIs(f: Tool, s: Session, r: Session, t: Task)
    requires Later(f, s, r, t)
    ensures Going(f, r) && r.sc == s.sc && r.states != [] && s.states != [] && r.states[0] == s.states[0]
    ensures StageKept(s, r, t) && StageOf(r.log, t).Done?
  {
  }

  lemma PassNext(f: Tool, c: Change, base: Store, x: Content, j: nat, s: Session) returns (r: Session)
    requires c.Valid() && j < c.k && Ledger(f, c.a, c.order, c.files, c.k, base) && Passing(f, c, base, x, j, s)
    ensures Passing(f, c, base, x, j + 1, r)
  {
    PassCurrent(f, c, base, x, j, s);
    PassIs(f, c, base, x, j, s);
    assert NoDup(c.order) && c.i < c.k < |c.order|;
    hide *;
    var t := c.order[j];
    if j != c.i {
      r := SkipStep(f, s, t);
    } else {
      r := FailStep(f, s, t, x);
    }
    LaterIs(f, s, r, t);
    DoneNext(c.order, j, s, r);
    SigsTwice(c.b.built, base, Now(s).store, Now(r).store, c.b.Out(t));
    NowPassing(f, c, base, x, j, s, r);
  }

  lemma NowPassing(f: Tool, c: Change, base: Store, x: Content, j: nat, s: Session, r: Session)
    requires c.i < |c.order| && j < |c.order| && c.b.OneOutput(c.order[c.i])
    requires s.states != [] && Going(f, r) && r.sc == c.b && r.states != [] && r.states[0] == Build(base, map[], map[])
    requires forall t :: t in c.order[..j + 1] ==> StageOf(r.log, t).Done?
    requires forall t :: t in c.order[j + 1..] ==> StageOf(r.log, t) == Idle
    requires forall n :: n in c.b.built ==> SameSig(base, Now(r).store, n)
    requires Now(s).store.sigs == (if j <= c.i then base.sigs else base.sigs - {c.b.UidOf(c.order[c.i])})
    requires Now(s).store.files == (if j <= c.i then base.files else base.files[c.b.Out(c.order[c.i]) := x])
    requires Now(r).store.sigs
      == (if j != c.i then Now(s).store.sigs else Now(s).store.sigs - {c.b.UidOf(c.order[c.i])})
    requires Now(r).store.files
      == (if j != c.i then Now(s).store.files else Now(s).store.files[c.b.Out(c.order[c.i]) := x])
    ensures Passing(f, c, base, x, j + 1, r)
  {
    hide Going, SameSig;
  }

  lemma {:induction false} PassTo(f: Tool, c: Change, base: Store, x: Content, j: nat) returns (s: Session)
    requires c.Valid() && j <= c.k && Ledger(f, c.a, c.order, c.files, c.k, base)
    ensures Passing(f, c, base, x, j, s)
    decreases j
  {
    hide Buildable, Sourced, Passing, Rewired, Stocked, SameSources, Trusty, HasSpecs, AllStored;
    if j == 0 {
      s := PassStarts(f, c, base, x);
    } else {
      var r := PassTo(f, c, base, x, j - 1);
      s := PassNext(f, c, base, x, j - 1, r);
    }
  }

  /** What the second build leaves: `x` where the failed task was to write, and what the fed task has made of that
      under the signature that its inputs had before. */
  ghost predicate Mess(f: Tool, c: Change, base: Store, x: Content, s: Store)
    requires c.i < |c.order| && c.k < |c.order| && c.b.OneOutput(c.order[c.i]) && c.b.OneOutput(c.order[c.k])
    requires HasInputs(c.a, SpecStore(c.a, c.order, c.files, c.k), c.order[c.k])
  {
    var b, q, t, g := c.b, c.order[c.i], c.order[c.k], SpecOf(c.a, c.order, c.files, c.k);
    var files := base.files[b.Out(q) := x];
    && t in b.vars && CanRead(files, b.Deps(t))
    && s.sigs == (base.sigs - {b.UidOf(q)})[b.UidOf(t) := g] && s.files == files[b.Out(t) := Written(f, b, files, t)]
    && b.Out(t) in s.nodeSig && s.nodeSig[b.Out(t)] == g
    && forall n :: n in b.built && n != b.Out(t) ==> SameSig(base, s, n)
  }

  lemma RanIs(f: Tool, s: Session, r: Session, t: Task)
    requires Due(f, s, t) && Ran(f, s, r, t)
    ensures Later(f, s, r, t) && s.states != [] && r.states != [] && s.sc.OneOutput(t) && t in s.sc.vars
    ensures HasInputs(s.sc, Now(s).store, t) && CanRead(Now(s).store.files, s.sc.Deps(t))
    ensures Now(r).store.sigs == Now(s).store.sigs[s.sc.UidOf(t) := TaskSig(s.sc, Now(s).store, t)]
    ensures Now(r).store.files == Now(s).store.files[s.sc.Out(t) := Written(f, s.sc, Now(s).store.files, t)]
    ensures SigsKept(s.sc.built, Now(s).store, Now(r).store, s.sc.Out(t))
    ensures s.sc.Out(t) in Now(r).store.nodeSig && Now(r).store.nodeSig[s.sc.Out(t)] == TaskSig(s.sc, Now(s).store, t)
  {
    LaterIs(f, s, r, t);
    hide Going, Goes, TaskSig, Written, CanRead, SigsKept, SoundRuns, InputsGood, Stocked;
  }

  lemma NotYetStored(f: Tool, c: Change, base: Store, x: Content, s: Session)
    requires c.Valid() && Ledger(f, c.a, c.order, c.files, c.k, base) && Passing(f, c, base, x, c.k, s)
    requires Due(f, s, c.order[c.k]) && HasInputs(c.b, Now(s).store, c.order[c.k])
    ensures c.b.OneOutput(c.order[c.k]) && !Current(c.b, Now(s).store, c.order[c.k])
  {
    TaskAt(c, c.k);
    PassIs(f, c, base, x, c.k, s);
    hide Passing, Due, TaskSig, Trusty, Stocked, HasSpecs, AllStored, SameSources, Change.Valid, SameSig;
  }

  lemma SecondBuild(f: Tool, c: Change, base: Store, x: Content) returns (s: Session)
    requires c.Valid() && Ledger(f, c.a, c.order, c.files, c.k, base)
    ensures s.sc == c.b && s.Valid(f) && |s.states| == |s.log| + 1 && s.Before() == base
    ensures c.b.OneOutput(c.order[c.i]) && c.b.OneOutput(c.order[c.k])
    ensures HasInputs(c.a, SpecStore(c.a, c.order, c.files, c.k), c.order[c.k]) && Mess(f, c, base, x, s.After())
  {
    assert c.i < c.k < |c.order|;
    TaskAt(c, c.k);
    TaskAt(c, c.i);
    hide *;
    var r := PassTo(f, c, base, x, c.k);
    PassDue(f, c, base, x, c.k, r);
    PassIs(f, c, base, x, c.k, r);
    NotYetStored(f, c, base, x, r);
    s := RunStep(f, r, c.order[c.k]);
    RanIs(f, r, s, c.order[c.k]);
    LaterIs(f, r, s, c.order[c.k]);
    GoingIs(f, s);
    MessIs(f, c, base, x, Now(r).store, Now(s).store);
  }

  lemma GoingIs(f: Tool, s: Session)
    requires Going(f, s) && s.states != []
    ensures s.Valid(f) && |s.states| == |s.log| + 1 && s.Before() == s.states[0].store && s.After() == Now(s).store
  {
  }

  lemma MessIs(f: Tool, c: Change, base: Store, x: Content, r: Store, s: Store)
    requires c.i < |c.order| && c.k < |c.order| && c.b.OneOutput(c.order[c.i]) && c.b.OneOutput(c.order[c.k])
    requires HasInputs(c.a, SpecStore(c.a, c.order, c.files, c.k), c.order[c.k]) && c.i < c.k
    requires forall n :: n in c.b.built ==> SameSig(base, r, n)
    requires r.sigs == (if c.k <= c.i then base.sigs else base.sigs - {c.b.UidOf(c.order[c.i])})
    requires r.files == (if c.k <= c.i then base.files else base.files[c.b.Out(c.order[c.i]) := x])
    requires c.order[c.k] in c.b.vars && CanRead(r.files, c.b.Deps(c.order[c.k])) && HasInputs(c.b, r, c.order[c.k])
    requires TaskSig(c.b, r, c.order[c.k]) == SpecOf(c.a, c.order, c.files, c.k)
    requires s.sigs == r.sigs[c.b.UidOf(c.order[c.k]) := TaskSig(c.b, r, c.order[c.k])]
    requires s.files == r.files[c.b.Out(c.order[c.k]) := Written(f, c.b, r.files, c.order[c.k])]
    requires SigsKept(c.b.built, r, s, c.b.Out(c.order[c.k]))
    requires c.b.Out(c.order[c.k]) in s.nodeSig && s.nodeSig[c.b.Out(c.order[c.k])] == TaskSig(c.b, r, c.order[c.k])
    ensures Mess(f, c, base, x, s)
  {
    hide SpecOf, TaskSig, HasInputs, SpecStore, Written, CanRead, Script.UidOf, Script.Out, Script.Deps;
    forall n | n in c.b.built && n != c.b.Out(c.order[c.k])
      ensures SameSig(base, s, n)
    {
      assert SameSig(base, r, n) && SameSig(r, s, n);
    }
  }

  // --- the third build: the failed task is run again, and the fed one skipped

  lemma MeansWritten(f: Tool, c: Change, base: Store)
    requires c.Valid() && Ledger(f, c.a, c.order, c.files, c.k, base)
    ensures HasInputs(c.a, SpecStore(c.a, c.order, c.files, c.k), c.order[c.k])
    ensures c.order[c.k] in c.a.vars && CanRead(base.files, c.a.Deps(c.order[c.k]))
    ensures Meaning(f, SpecOf(c.a, c.order, c.files, c.k)) == Written(f, c.a, base.files, c.order[c.k])
  {
    TaskAt(c, c.k);
    hide Buildable, Sourced, Rewired, SameSources, AllStored, SpecOf, HasSpecs, Script.Valid;
    SigHolds(c.a, c.order, c.files, c.k, c.k, base);
    AllRead(f, c.a, base, c.order[c.k]);
    WrittenMeans(f, c.a, base, c.order[c.k], {});
  }

  lemma AllRead(f: Tool, sc: Script, s: Store, t: Task)
    requires HasInputs(sc, s, t) && Stocked(sc.built, s)
    ensures CanRead(s.files, sc.Deps(t))
  {
    forall d | d in sc.Deps(t)
      ensures d in s.files
    {
      assert HasSig(sc, s, d);
    }
  }

  /** The fed task has written something else than its signature stands for. */
  lemma MessPoisoned(f: Tool, c: Change, base: Store, x: Content, s: Store)
    requires c.Valid() && Ledger(f, c.a, c.order, c.files, c.k, base)
    requires c.b.OneOutput(c.order[c.i]) && c.b.OneOutput(c.order[c.k])
    requires HasInputs(c.a, SpecStore(c.a, c.order, c.files, c.k), c.order[c.k]) && Mess(f, c, base, x, s)
    requires c.order[c.k] in c.a.vars && CanRead(base.files, c.a.Deps(c.order[c.k]))
    requires var files := base.files[c.a.Out(c.order[c.i]) := x];
      CanRead(files, c.a.Deps(c.order[c.k]))
        && Written(f, c.a, files, c.order[c.k]) != Written(f, c.a, base.files, c.order[c.k])
    ensures Poisoned(f, c.a, c.order, c.files, c.k, s)
  {
    MeansWritten(f, c, base);
    TaskAt(c, c.k);
    TaskAt(c, c.i);
    WritesSame(f, c, base.files[c.a.Out(c.order[c.i]) := x]);
    hide Ledger, Change.Valid, SpecOf, SpecStore, HasInputs, Written, CanRead, Meaning, Script.Valid, Script.UidOf,
         Script.Out, Script.Deps;
  }

  lemma WritesSame(f: Tool, c: Change, files: map<Node, Content>)
    requires c.Valid() && c.order[c.k] in c.a.info && c.order[c.k] in c.a.vars && CanRead(files, c.a.Deps(c.order[c.k]))
    ensures c.order[c.k] in c.b.info && c.order[c.k] in c.b.vars && CanRead(files, c.b.Deps(c.order[c.k]))
    ensures Written(f, c.a, files, c.order[c.k]) == Written(f, c.b, files, c.order[c.k])
  {
    TaskAt(c, c.k);
    hide Buildable, Sourced;
  }

  /** Everything else is in order. */
  lemma MessTrusty(f: Tool, c: Change, base: Store, x: Content, s: Store)
    requires c.Valid() && Ledger(f, c.a, c.order, c.files, c.k, base)
    requires c.b.OneOutput(c.order[c.i]) && c.b.OneOutput(c.order[c.k])
    requires HasInputs(c.a, SpecStore(c.a, c.order, c.files, c.k), c.order[c.k]) && Mess(f, c, base, x, s)
    requires Poisoned(f, c.a, c.order, c.files, c.k, s)
    ensures Repairable(f, c, s) && Stocked(c.a.built, s) && SameSources(c.a, c.files, s.files)
  {
    TaskAt(c, c.k);
    TaskAt(c, c.i);
    UidsDiffer(c.a, c.order[c.i], c.order[c.k]);
    assert c.i < c.k < |c.order|;
    hide Change.Valid, SpecOf, SpecStore, HasInputs, HasSpecs, AllStored, Script.Valid, Script.UidOf, Script.Out,
         Script.OneOutput, Poisoned, Trusty, Stocked, SameSources, Mess;
    MessMoves(f, c, base, x, s);
    RestTrusty(f, c.a.built, base, s, c.a.Out(c.order[c.i]), c.a.Out(c.order[c.k]));
    RestSources(c.a, c.files, base.files, s.files, c.a.Out(c.order[c.i]), c.a.Out(c.order[c.k]));
  }

  /** The two outputs apart, the files and signatures are those of before. */
  lemma MessMoves(f: Tool, c: Change, base: Store, x: Content, s: Store)
    requires c.i < |c.order| && c.k < |c.order| && c.b.OneOutput(c.order[c.i]) && c.b.OneOutput(c.order[c.k])
    requires HasInputs(c.a, SpecStore(c.a, c.order, c.files, c.k), c.order[c.k]) && Mess(f, c, base, x, s)
    ensures c.b.Out(c.order[c.i]) in s.files && c.b.Out(c.order[c.k]) in s.files
    ensures forall o :: o !in {c.b.Out(c.order[c.i]), c.b.Out(c.order[c.k])} ==> SameFile(base.files, s.files, o)
    ensures forall o :: o in c.b.built && o != c.b.Out(c.order[c.k]) ==> SameSig(base, s, o)
    ensures c.b.UidOf(c.order[c.i]) != c.b.UidOf(c.order[c.k]) ==> c.b.UidOf(c.order[c.i]) !in s.sigs
  {
    hide SpecOf, SpecStore, HasInputs, Written, CanRead, SameSig, Script.UidOf, Script.Out, Script.Deps;
  }

  lemma RestTrusty(f: Tool, built: set<Node>, base: Store, s: Store, m: Node, n: Node)
    requires Trusty(f, built, base, {}) && Stocked(built, base)
    requires m in s.files && n in s.files && forall o :: o !in {m, n} ==> SameFile(base.files, s.files, o)
    requires forall o :: o in built && o != n ==> SameSig(base, s, o)
    ensures Trusty(f, built, s, {m, n}) && Stocked(built, s)
  {
    forall o | o in built && o in s.nodeSig
      ensures o in s.files && (o !in {m, n} ==> Faithful(f, s, o))
    {
      if o !in {m, n} {
        assert SameSig(base, s, o) && Faithful(f, base, o);
        assert SameFile(base.files, s.files, o);
      }
    }
  }

  lemma RestSources(sc: Script, files: map<Node, Content>, a: map<Node, Content>, b: map<Node, Content>, m: Node,
                    n: Node)
    requires SameSources(sc, files, a) && m in sc.built && n in sc.built
    requires forall o :: o !in {m, n} ==> SameFile(a, b, o)
    ensures SameSources(sc, files, b)
  {
    forall o | o !in sc.built
      ensures SameFile(files, b, o)
    {
      assert SameFile(files, a, o) && SameFile(a, b, o);
    }
  }

  /** A task that is run makes its output one to trust. */
  lemma RunTrusty(f: Tool, s: Session, r: Session, t: Task, bad: set<Node>)
    requires Due(f, s, t) && r.states != [] && Built(f, s, r, t) && s.states != [] && s.sc.OneOutput(t)
    requires Trusty(f, s.sc.built, Now(s).store, bad) && forall d :: d in s.sc.Deps(t) ==> d !in bad
    requires s.sc.UidOf(t) !in Now(s).store.sigs
    ensures Trusty(f, s.sc.built, Now(r).store, bad - {s.sc.Out(t)})
  {
    hide Going, Later, TaskSig, SoundRuns, InputsGood, Written, CanRead, SigsKept, SameKey;
    NextFree(f, s, t);
    ItGoes(f, s, t);
    var sc, a, b := s.sc, Now(s).store, Now(r).store;
    WrittenMeans(f, sc, a, t, bad);
    forall n | n in sc.built && n !in bad - {sc.Out(t)} && n in b.nodeSig
      ensures Faithful(f, b, n)
    {
      if n != sc.Out(t) {
        BuiltElsewhere(f, s, r, t, n);
        assert Faithful(f, a, n);
      }
    }
  }

  /** The tasks up to place `k` neither write nor read what is written later. */
  lemma NoneReads(sc: Script, order: seq<Task>, i: nat, k: nat)
    requires Buildable(sc, order) && i < k < |order| && sc.OneOutput(order[i]) && sc.OneOutput(order[k])
    ensures AllClean(sc, order[..i], {sc.Out(order[i]), sc.Out(order[k])})
            && AllClean(sc, order[i + 1..k], {sc.Out(order[k])})
    ensures !MadeBy(sc, order[..i], sc.Out(order[i])) && !MadeBy(sc, order[..i], sc.Out(order[k]))
    ensures !MadeBy(sc, order[i + 1..k], sc.Out(order[k])) && sc.Out(order[i]) != sc.Out(order[k])
    ensures forall d :: d in sc.Deps(order[i]) ==> d != sc.Out(order[i]) && d != sc.Out(order[k])
    ensures sc.Out(order[i]) in sc.built && sc.Out(order[k]) in sc.built
  {
    EarlierClean(sc, order, i);
    EarlierClean(sc, order, k);
    PartOf(order, i, k);
    OwnNotRead(sc, order, i);
    hide Buildable, NoDup;
    assert order[..k][i] == order[i];
    assert Clean(sc, order[i], {sc.Out(order[k])});
    forall t | t in order[..i]
      ensures Clean(sc, t, {sc.Out(order[i]), sc.Out(order[k])})
    {
      assert Clean(sc, t, {sc.Out(order[i])}) && Clean(sc, t, {sc.Out(order[k])});
    }
  }

  lemma PartOf(order: seq<Task>, i: nat, k: nat)
    requires i < k <= |order|
    ensures forall t :: t in order[..i] || t in order[i + 1..k] ==> t in order[..k]
  {
    assert order[..k] == order[..i] + [order[i]] + order[i + 1..k];
  }

  lemma OwnNotRead(sc: Script, order: seq<Task>, i: nat)
    requires Buildable(sc, order) && i < |order| && sc.OneOutput(order[i])
    ensures forall d :: d in sc.Deps(order[i]) ==> d != sc.Out(order[i])
  {
    assert FedBy(sc, order, i) && order[i] in order;
    NotYet(order, i, i);
    assert Feeds(sc, order[i], order[i]) <==> sc.Out(order[i]) in sc.Deps(order[i]);
  }

  lemma StillUnsigned(a: Store, b: Store, sc: Script, t: Task)
    requires sc.OneOutput(t) && Untouched(a, b, sc.Out(t)) && sc.UidOf(t) !in a.sigs
    ensures sc.UidOf(t) !in b.sigs
  {
    assert OutputOf(sc.UidOf(t), sc.Out(t));
    assert SameKey(a.sigs, b.sigs, sc.UidOf(t));
  }

  /** What the third build starts from, and still has when it comes to the failed task. */
  ghost predicate Repairable(f: Tool, c: Change, s: Store) {
    && c.i < |c.order| && c.k < |c.order| && c.a.OneOutput(c.order[c.i]) && c.a.OneOutput(c.order[c.k])
    && c.a.UidOf(c.order[c.i]) !in s.sigs && HasInputs(c.a, SpecStore(c.a, c.order, c.files, c.k), c.order[c.k])
    && Trusty(f, c.a.built, s, {c.a.Out(c.order[c.i]), c.a.Out(c.order[c.k])})
    && Poisoned(f, c.a, c.order, c.files, c.k, s)
  }

  lemma ItsParts(c: Change)
    requires c.Valid()
    ensures c.i < c.k < |c.order| && Buildable(c.a, c.order) && Sourced(c.a, c.files) && VarsOnly(c.a, c.b)
    ensures c.a.OneOutput(c.order[c.k]) && c.order[c.k] in c.a.info && c.order[c.k] in c.a.vars && c.a.Valid()
  {
    TaskAt(c, c.k);
    hide Sourced;
  }

  lemma StaysRepairable(f: Tool, c: Change, b: Store, s: Store)
    requires c.Valid() && Repairable(f, c, b) && Stretch(f, c.a, c.order, c.files, 0, c.i, b, s)
    ensures Repairable(f, c, s)
  {
    var a, order, m, n := c.a, c.order, c.a.Out(c.order[c.i]), c.a.Out(c.order[c.k]);
    NoneReads(a, order, c.i, c.k);
    hide Buildable, Sourced, Stretch, Trusty, AllClean, Poisoned, HasInputs, Untouched, SpecStore, MadeBy, Rewired;
    assert order[0..c.i] == order[..c.i];
    StretchFacts(f, a, order, c.files, 0, c.i, b, s, {m, n}, m);
    StretchFacts(f, a, order, c.files, 0, c.i, b, s, {m, n}, n);
    StillUnsigned(b, s, a, order[c.i]);
    PoisonStays(f, a, order, c.files, c.k, b, s);
  }

  ghost predicate OnlyPoison(f: Tool, c: Change, s: Store) {
    && c.k < |c.order| && c.a.OneOutput(c.order[c.k])
    && HasInputs(c.a, SpecStore(c.a, c.order, c.files, c.k), c.order[c.k])
    && Trusty(f, c.a.built, s, {c.a.Out(c.order[c.k])}) && Poisoned(f, c.a, c.order, c.files, c.k, s)
  }

  /** The failed task is run again, and its output can be trusted. */
  lemma Repaired(f: Tool, c: Change, s: Session, r: Session)
    requires c.Valid() && s.states != [] && r.states != [] && s.sc == c.a && Repairable(f, c, Now(s).store)
    requires Due(f, s, c.order[c.i]) && Built(f, s, r, c.order[c.i])
    ensures OnlyPoison(f, c, Now(r).store)
  {
    hide *;
    ItsParts(c);
    RepairableIs(f, c, Now(s).store);
    NoneReads(c.a, c.order, c.i, c.k);
    TrustsAgain(f, s, r, c.order[c.i], c.a.Out(c.order[c.k]));
    BuiltUntouched(f, s, r, c.order[c.i], c.a.Out(c.order[c.k]));
    PoisonStays(f, c.a, c.order, c.files, c.k, Now(s).store, Now(r).store);
    IsPoison(f, c, Now(r).store);
  }

  lemma TrustsAgain(f: Tool, s: Session, r: Session, t: Task, n: Node)
    requires Due(f, s, t) && r.states != [] && Built(f, s, r, t) && s.states != [] && s.sc.OneOutput(t)
             && s.sc.Out(t) != n
    requires Trusty(f, s.sc.built, Now(s).store, {s.sc.Out(t), n})
    requires forall d :: d in s.sc.Deps(t) ==> d != s.sc.Out(t) && d != n
    requires s.sc.UidOf(t) !in Now(s).store.sigs
    ensures Trusty(f, s.sc.built, Now(r).store, {n})
  {
    hide *;
    RunTrusty(f, s, r, t, {s.sc.Out(t), n});
    assert {s.sc.Out(t), n} - {s.sc.Out(t)} == {n};
  }

  lemma RepairableIs(f: Tool, c: Change, s: Store)
    requires Repairable(f, c, s)
    ensures c.i < |c.order| && c.k < |c.order| && c.a.OneOutput(c.order[c.i]) && c.a.OneOutput(c.order[c.k])
    ensures c.a.UidOf(c.order[c.i]) !in s.sigs && HasInputs(c.a, SpecStore(c.a, c.order, c.files, c.k), c.order[c.k])
    ensures Trusty(f, c.a.built, s, {c.a.Out(c.order[c.i]), c.a.Out(c.order[c.k])})
    ensures Poisoned(f, c.a, c.order, c.files, c.k, s)
  {
    hide Trusty, Poisoned, HasInputs, SpecStore;
  }

  lemma IsPoison(f: Tool, c: Change, s: Store)
    requires c.k < |c.order| && c.a.OneOutput(c.order[c.k])
    requires HasInputs(c.a, SpecStore(c.a, c.order, c.files, c.k), c.order[c.k])
    requires Trusty(f, c.a.built, s, {c.a.Out(c.order[c.k])}) && Poisoned(f, c.a, c.order, c.files, c.k, s)
    ensures OnlyPoison(f, c, s)
  {
  }

  lemma StaysPoison(f: Tool, c: Change, b: Store, s: Store)
    requires c.Valid() && OnlyPoison(f, c, b) && Stretch(f, c.a, c.order, c.files, c.i + 1, c.k, b, s)
    requires c.a.OneOutput(c.order[c.i])
    ensures OnlyPoison(f, c, s)
  {
    var a, order, n := c.a, c.order, c.a.Out(c.order[c.k]);
    NoneReads(a, order, c.i, c.k);
    hide Buildable, Sourced, Stretch, Trusty, AllClean, Poisoned, HasInputs, Untouched, SpecStore, MadeBy, Rewired;
    StretchFacts(f, a, order, c.files, c.i + 1, c.k, b, s, {n}, n);
    PoisonStays(f, a, order, c.files, c.k, b, s);
  }

  lemma NowStart(s: Session, b: Store)
    requires s.states == [Build(b, map[], map[])]
    ensures Now(s).store == b
  {
  }

  /** The build up to the fed task, from what the second one has left. */
  lemma RepairsUpto(f: Tool, c: Change, b: Store) returns (s: Session)
    requires c.Valid() && Stocked(c.a.built, b) && SameSources(c.a, c.files, b.files) && Repairable(f, c, b)
    ensures Upto(f, c.a, c.order, c.files, c.k, s) && s.states != [] && s.states[0] == Build(b, map[], map[])
    ensures SoundRuns(c.a, s.log) && OnlyPoison(f, c, Now(s).store)
  {
    var a, order := c.a, c.order;
    hide *;
    ItsParts(c);
    TaskAt(c, c.i);
    var s0 := StartsUpto(f, a, order, c.files, b);
    NowStart(s0, b);
    var s1 := BuildOn(f, a, order, c.files, 0, c.i, s0);
    StaysRepairable(f, c, b, Now(s1).store);
    TaskFacts(f, a, order, c.files, c.i, s1);
    var s2 := Advance(f, a, order, c.files, c.i, s1);
    BuiltStarts(f, s1, s2, order[c.i]);
    Repaired(f, c, s1, s2);
    s := BuildOn(f, a, order, c.files, c.i + 1, c.k, s2);
    StaysPoison(f, c, Now(s2).store, Now(s).store);
  }

  // --- three builds

  /** Over the script `a`, a change of its variables and back, the last build of this history is error-free, and
      yet an output is not up to date. No output changes its uid, and only the second build may have run a command
      on the output of a failed one. */
  ghost predicate CarelessStale(f: Tool, h: seq<Session>, a: Script, b: Script) {
    && Builds(f, h) && NoReturn(h) && |h| == 3 && h[0].sc == h[2].sc == a && h[1].sc == b && VarsOnly(a, b)
    && SoundRuns(a, h[0].log) && SoundRuns(a, h[2].log) && h[2].ErrorFree() && h[2].states != []
    && exists t :: t in a.info && !UpToDate(f, a, h[2].After().files, t)
  }

  lemma NoneReturns(h: seq<Session>, a: Script)
    requires forall i :: 0 <= i < |h| ==> VarsOnly(a, h[i].sc)
    requires a.Valid()
    ensures NoReturn(h)
  {
    hide Script.Valid, VarsOnly, Under;
    forall i, j, k | 0 <= i < j < k < |h|
      ensures !Returns(h[i].sc, h[j].sc, h[k].sc)
    {
      forall n, u, v | Under(h[i].sc, n, u) && Under(h[j].sc, n, v)
        ensures u == v
      {
        SameUids(a, h[i].sc, n, u);
        SameUids(a, h[j].sc, n, v);
        UidUnique(a, n, u, v);
      }
    }
  }

  /** What the tool writes for `t` depends on the file `n`, whatever `t` reads. */
  ghost predicate Tells(f: Tool, sc: Script, t: Task, n: Node) {
    && t in sc.info && t in sc.vars
    && forall files :: CanRead(files, sc.Deps(t)) ==> Differs(f, sc, t, n, files)
  }

  ghost predicate Differs(f: Tool, sc: Script, t: Task, n: Node, files: map<Node, Content>)
    requires t in sc.info && t in sc.vars && CanRead(files, sc.Deps(t))
  {
    exists x :: DiffersFor(f, sc, t, n, files, x)
  }

  ghost predicate DiffersFor(f: Tool, sc: Script, t: Task, n: Node, files: map<Node, Content>, x: Content)
    requires t in sc.info && t in sc.vars && CanRead(files, sc.Deps(t))
  {
    CanRead(files[n := x], sc.Deps(t)) && Written(f, sc, files[n := x], t) != Written(f, sc, files, t)
  }

  lemma ThreeCareless(f: Tool, a: Script, b: Script, s1: Session, s2: Session, s3: Session, t: Task)
    requires s1.Valid(f) && s2.Valid(f) && s3.Valid(f) && s1.sc == s3.sc == a && s2.sc == b && VarsOnly(a, b)
             && a.Valid()
    requires |s1.states| == |s1.log| + 1 && |s2.states| == |s2.log| + 1 && |s3.states| == |s3.log| + 1
    requires SoundRuns(a, s1.log) && SoundRuns(a, s3.log) && s1.Before().sigs == map[]
    requires s2.Before() == s1.After() && s3.Before() == s2.After()
    requires s3.ErrorFree() && t in a.info && !UpToDate(f, a, s3.After().files, t)
    ensures CarelessStale(f, [s1, s2, s3], a, b)
  {
    hide Session.Valid, Session.ErrorFree, SoundRuns, Edited, UpToDate, Builds, NoReturn, Script.Valid;
    NotEdited(a.built, s1.After());
    NotEdited(a.built, s2.After());
    BuildsThree(f, s1, s2, s3);
    var h := [s1, s2, s3];
    assert h[0] == s1 && h[1] == s2 && h[2] == s3;
    NoneReturns(h, a);
  }

  /** Whatever the script: where one task feeds another, and what is written for the other depends on what it is
      fed, a single command that is run on the output of a failed one can do harm. */
  lemma FedGoesStale(f: Tool, c: Change)
    requires c.Valid() && c.a.OneOutput(c.order[c.i]) && Tells(f, c.a, c.order[c.k], c.a.Out(c.order[c.i]))
    ensures exists h :: CarelessStale(f, h, c.a, c.b)
  {
    ItsParts(c);
    hide *;
    var s1 := FirstPart(f, c.a, c.order, c.files, c.k);
    MeansWritten(f, c, s1.After());
    var x := Garbage(f, c.a, c.order[c.k], c.a.Out(c.order[c.i]), s1.After().files);
    var s2 := SecondBuild(f, c, s1.After(), x);
    MessPoisoned(f, c, s1.After(), x, s2.After());
    MessTrusty(f, c, s1.After(), x, s2.After());
    var s3 := ThirdBuild(f, c, s2.After());
    ThreeCareless(f, c.a, c.b, s1, s2, s3, c.order[c.k]);
  }

  lemma ThirdBuild(f: Tool, c: Change, b: Store) returns (s: Session)
    requires c.Valid() && Stocked(c.a.built, b) && SameSources(c.a, c.files, b.files) && Repairable(f, c, b)
    ensures s.sc == c.a && s.Valid(f) && SoundRuns(c.a, s.log) && s.ErrorFree() && |s.states| == |s.log| + 1
    ensures s.Before() == b && c.k < |c.order| && !UpToDate(f, c.a, s.After().files, c.order[c.k])
  {
    ItsParts(c);
    hide Change.Valid, Stocked, SameSources, Repairable, Upto, SoundRuns, UpToDate, Session.Valid, Session.ErrorFree,
         Buildable, Sourced, Trusty, Poisoned, HasInputs, SpecStore;
    var r := RepairsUpto(f, c, b);
    s := SkipsOn(f, c.a, c.order, c.files, c.k, b, r);
  }

  lemma Garbage(f: Tool, sc: Script, t: Task, n: Node, files: map<Node, Content>) returns (x: Content)
    requires t in sc.info && t in sc.vars && Tells(f, sc, t, n) && CanRead(files, sc.Deps(t))
    ensures CanRead(files[n := x], sc.Deps(t)) && Written(f, sc, files[n := x], t) != Written(f, sc, files, t)
  {
    assert Differs(f, sc, t, n, files);
    x :| DiffersFor(f, sc, t, n, files, x);
  }

  // --- exactly when

  /** A command that joins what it reads. */
  const JOIN: Tool := (code, vars, xs) => Joined(xs)

  function Joined(xs: seq<Content>): Content {
    if xs == [] then "" else xs[0] + Joined(xs[1..])
  }

  lemma {:induction false} LongerJoined(xs: seq<Content>, ys: seq<Content>)
    requires |xs| == |ys| && forall i :: 0 <= i < |xs| ==> |xs[i]| <= |ys[i]|
    ensures |Joined(xs)| <= |Joined(ys)|
    ensures (exists i :: 0 <= i < |xs| && |xs[i]| < |ys[i]|) ==> |Joined(xs)| < |Joined(ys)|
    decreases |xs|
  {
    if xs != [] {
      LongerJoined(xs[1..], ys[1..]);
      if i :| 0 <= i < |xs| && |xs[i]| < |ys[i]| {
        assert i > 0 ==> xs[1..][i - 1] == xs[i] && ys[1..][i - 1] == ys[i];
      }
    }
  }

  lemma JoinTells(sc: Script, t: Task, n: Node)
    requires t in sc.info && t in sc.vars && n in sc.Deps(t)
    ensures Tells(JOIN, sc, t, n)
  {
    forall files | CanRead(files, sc.Deps(t))
      ensures Differs(JOIN, sc, t, n, files)
    {
      var deps, x := sc.Deps(t), files[n] + "!";
      var xs, ys := Contents(files, deps), Contents(files[n := x], deps);
      var i :| 0 <= i < |deps| && deps[i] == n;
      assert |xs[i]| < |ys[i]|;
      LongerJoined(xs, ys);
      assert DiffersFor(JOIN, sc, t, n, files, x);
    }
  }

  lemma PlacesOf(a: Script, order: seq<Task>, q: Task, t: Task) returns (i: nat, k: nat)
    requires Buildable(a, order) && Feeds(a, q, t)
    ensures i < k < |order| && order[i] == q && order[k] == t
  {
    k := PlaceOf(a, order, t);
    assert FedBy(a, order, k);
    i :| 0 <= i < k && order[..k][i] == q;
  }

  lemma NothingFed(f: Tool, h: seq<Session>, a: Script, b: Script)
    requires CarelessStale(f, h, a, b)
    ensures exists q, t :: Feeds(a, q, t)
  {
    hide Builds, NoReturn, UpToDate, Session.ErrorFree, Feeds;
    if forall q, t :: !Feeds(a, q, t) {
      forall i | 0 <= i < |h|
        ensures SoundRuns(h[i].sc, h[i].log)
      {
        forall q, t
          ensures !Feeds(h[i].sc, q, t)
        {
          FeedsToo(a, h[i].sc, q, t);
        }
      }
      hide SoundRuns;
      assert EndsWith(h, h[2]);
      AllUpToDate(f, h, h[2]);
      assert false;
    }
  }

  /** Running a command on the output of a failed one can do harm in some change of the variables and back, with
      some tool, exactly when the script has one task feed another. */
  lemma CarefulIsNeeded(a: Script, order: seq<Task>, files: map<Node, Content>)
    requires Buildable(a, order) && Sourced(a, files)
    ensures (exists f: Tool, b: Script, h: seq<Session> :: CarelessStale(f, h, a, b)) <==> exists q, t :: Feeds(a, q, t)
  {
    if q, t :| Feeds(a, q, t) {
      var i, k := PlacesOf(a, order, q, t);
      assert q in a.vars && t in a.vars && a.Out(q) in a.Deps(t);
      RewireIs(a, q);
      JoinTells(a, t, a.Out(q));
      hide Buildable, Sourced, Tells, CarelessStale, Rewired;
      FedGoesStale(JOIN, Change(a, Rewire(a, q), order, files, i, k));
    }
    if f: Tool, b: Script, h: seq<Session> :| CarelessStale(f, h, a, b) {
      NothingFed(f, h, a, b);
    }
  }
}
