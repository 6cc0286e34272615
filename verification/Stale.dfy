/** Where incremental builds do go wrong: what a history of builds must not contain, and how an error-free
    build then keeps a stale output. */
module Stale {
  import opened Basics
  import opened TaskOrder
  import opened Schedule
  import opened ScheduleProofs
  import opened Signatures
  import opened Incremental
  import opened Replay

  // --- a script that is changed back

  /** Sessions under these scripts, the last one error-free, and yet an output is not up to date. */
  ghost predicate GoesStale(f: Tool, h: seq<Session>, scs: seq<Script>) {
    && Builds(f, h) && AllSound(h) && |h| == |scs| && h != []
    && (forall i :: 0 <= i < |h| ==> h[i].sc == scs[i])
    && var s := h[|h| - 1];
         s.ErrorFree() && s.states != [] && exists t :: t in s.sc.info && !UpToDate(f, s.sc, s.After().files, t)
  }

  /** The signature that the task in place `k` gets from the sources alone. */
  ghost function SpecOf(sc: Script, order: seq<Task>, files: map<Node, Content>, k: nat): Sig
    requires k < |order| && HasInputs(sc, SpecStore(sc, order, files, k), order[k])
  {
    TaskSig(sc, SpecStore(sc, order, files, k), order[k])
  }

  lemma {:induction false} SpecStays(sc: Script, order: seq<Task>, files: map<Node, Content>, k: nat, m: nat)
    requires Buildable(sc, order) && Sourced(sc, files) && k < m <= |order|
    ensures sc.OneOutput(order[k]) && HasInputs(sc, SpecStore(sc, order, files, k), order[k])
    ensures sc.Out(order[k]) in Specs(sc, order, files, m)
    ensures Specs(sc, order, files, m)[sc.Out(order[k])] == SpecOf(sc, order, files, k)
    decreases m
  {
    hide Specs, TaskSig, HasInputs, Sourced;
    SpecsGrow(sc, order, files, k);
    if m > k + 1 {
      SpecStays(sc, order, files, k, m - 1);
      SpecsGrow(sc, order, files, m - 1);
      assert order[m - 1] in order && order[k] in order && order[m - 1] != order[k];
    }
  }

  /** The outputs of the tasks before `k` are not the output of task `k`, which they do not read either. */
  lemma EarlierClean(sc: Script, order: seq<Task>, k: nat)
    requires Buildable(sc, order) && k < |order| && sc.OneOutput(order[k])
    ensures AllClean(sc, order[..k], {sc.Out(order[k])}) && !MadeBy(sc, order[..k], sc.Out(order[k]))
    ensures AllClean(sc, order[..k], {}) && sc.Out(order[k]) in sc.built
  {
    var n := sc.Out(order[k]);
    assert order[k] in order;
    forall t | t in order[..k]
      ensures Clean(sc, t, {n}) && Clean(sc, t, {})
    {
      var i :| 0 <= i < k && order[i] == t;
      assert t in order && FedBy(sc, order, i);
      NotYet(order, i, k);
      assert Feeds(sc, order[k], t) <==> n in sc.Deps(t);
    }
  }

  lemma NotYet(order: seq<Task>, i: nat, k: nat)
    requires NoDup(order) && i <= k < |order|
    ensures order[k] !in order[..i] && (i < k ==> order[i] != order[k])
  {
  }

  lemma LaterUnmade(sc: Script, order: seq<Task>, k: nat, n: Node)
    requires Buildable(sc, order) && k < |order| && sc.OneOutput(order[k])
    requires n == sc.Out(order[k]) || (n in sc.Deps(order[k]) && n in sc.built)
    ensures !MadeBy(sc, order[k + 1..], n)
  {
    forall t | t in order[k + 1..]
      ensures !sc.Makes(t, n)
    {
      var i :| k < i < |order| && order[i] == t;
      assert t in order && order[k] in order && FedBy(sc, order, k);
      NotYet(order, k, i);
      assert !Feeds(sc, t, order[k]);
    }
  }

  /** A build that comes as far as task `i`, whose signature is not stored, and fails there, leaving `g`. */
  lemma FailAt(f: Tool, sc: Script, order: seq<Task>, b: Store, i: nat, g: Content) returns (s: Session)
    requires Buildable(sc, order) && Sourced(sc, b.files) && Stocked(sc.built, b) && Trusty(f, sc.built, b, {})
    requires i < |order| && sc.OneOutput(order[i]) && sc.UidOf(order[i]) !in b.sigs
    ensures s.sc == sc && s.Valid(f) && SoundRuns(sc, s.log) && |s.states| == |s.log| + 1 && s.Before() == b
    ensures Failure(f, sc, b, s.After(), order[i], g)
  {
    hide Upto, Buildable, Sourced, Stretch, SoundRuns, Stocked, SameSources, Trusty, AllClean, Failure, Due;
    var t, n := order[i], sc.Out(order[i]);
    SourcesSame(sc, b.files);
    var s0 := StartsUpto(f, sc, order, b.files, b);
    var s1 := BuildOn(f, sc, order, b.files, 0, i, s0);
    EarlierClean(sc, order, i);
    UptoNext(f, sc, order, b.files, i, s1);
    TaskFacts(f, sc, order, b.files, i, s1);
    ItGoes(f, s1, t);
    assert order[0..i] == order[..i];
    StretchFacts(f, sc, order, b.files, 0, i, b, Now(s1).store, {}, n);
    NotStored(sc, Now(s1).store, b, t);
    s := FailStep(f, s1, t, g);
    FailedIs(f, sc, order, i, b, s1, s, g);
  }

  /** `t` has failed, somewhere between `b` and `a`, leaving `g`. */
  ghost predicate Failure(f: Tool, sc: Script, b: Store, a: Store, t: Task, g: Content)
    requires sc.OneOutput(t)
  {
    var n := sc.Out(t);
    && Stocked(sc.built, a) && SameSources(sc, b.files, a.files) && Trusty(f, sc.built, a, {n})
    && SameSig(b, a, n) && n in a.files && a.files[n] == g
    && forall u :: OutputOf(u, n) && u != sc.UidOf(t) ==> SameKey(b.sigs, a.sigs, u)
  }

  lemma StretchFacts(f: Tool, sc: Script, order: seq<Task>, files: map<Node, Content>, i: nat, k: nat, a: Store,
                     b: Store, bad: set<Node>, n: Node)
    requires i <= k <= |order| && Stretch(f, sc, order, files, i, k, a, b)
    ensures Trusty(f, sc.built, a, bad) && AllClean(sc, order[i..k], bad) ==> Trusty(f, sc.built, b, bad)
    ensures n in sc.built && !MadeBy(sc, order[i..k], n) ==> Untouched(a, b, n)
  {
    hide Trusty, AllClean, AllStored, Untouched, MadeBy;
  }

  lemma NotStored(sc: Script, s: Store, b: Store, t: Task)
    requires sc.OneOutput(t) && HasInputs(sc, s, t) && sc.UidOf(t) !in b.sigs && Untouched(b, s, sc.Out(t))
    ensures !Current(sc, s, t)
  {
    assert OutputOf(sc.UidOf(t), sc.Out(t));
    assert SameKey(b.sigs, s.sigs, sc.UidOf(t));
  }

  lemma FailedIs(f: Tool, sc: Script, order: seq<Task>, i: nat, b: Store, s1: Session, s: Session, g: Content)
    requires i < |order| && Upto(f, sc, order, b.files, i, s1) && sc.OneOutput(order[i]) && sc.Out(order[i]) in sc.built
    requires Later(f, s1, s, order[i]) && s.states != []
    requires Now(s).store.sigs == Now(s1).store.sigs - {sc.UidOf(order[i])}
    requires Now(s).store.files == Now(s1).store.files[sc.Out(order[i]) := g]
    requires SigsKept(sc.built, Now(s1).store, Now(s).store, sc.Out(order[i]))
             && SameSig(Now(s1).store, Now(s).store, sc.Out(order[i]))
    requires Trusty(f, sc.built, Now(s1).store, {}) && Untouched(b, Now(s1).store, sc.Out(order[i]))
    ensures s.Valid(f) && |s.states| == |s.log| + 1 && Failure(f, sc, b, s.After(), order[i], g)
  {
    hide Specs, Session.Valid, CachesWell, TasksSigned;
    var n, a, c := sc.Out(order[i]), Now(s1).store, Now(s).store;
    forall m | m in sc.built && m !in {n} && m in c.nodeSig
      ensures Faithful(f, c, m)
    {
      assert SameSig(a, c, m);
      assert Faithful(f, a, m);
    }
    forall m | m !in sc.built
      ensures SameFile(b.files, c.files, m)
    {
      assert SameFile(b.files, a.files, m);
    }
    forall u | OutputOf(u, n) && u != sc.UidOf(order[i])
      ensures SameKey(b.sigs, c.sigs, u)
    {
      assert SameKey(b.sigs, a.sigs, u);
    }
  }

  /** A file that is not what the task's signature stands for, under signatures that agree. */
  ghost predicate Poisoned(f: Tool, sc: Script, order: seq<Task>, files: map<Node, Content>, k: nat, s: Store)
    requires k < |order| && HasInputs(sc, SpecStore(sc, order, files, k), order[k]) && sc.OneOutput(order[k])
  {
    var n, u, g := sc.Out(order[k]), sc.UidOf(order[k]), SpecOf(sc, order, files, k);
    && n in s.nodeSig && s.nodeSig[n] == g && u in s.sigs && s.sigs[u] == g
    && n in s.files && s.files[n] != Meaning(f, g)
  }

  lemma PoisonStays(f: Tool, sc: Script, order: seq<Task>, files: map<Node, Content>, k: nat, a: Store, b: Store)
    requires k < |order| && HasInputs(sc, SpecStore(sc, order, files, k), order[k]) && sc.OneOutput(order[k])
    requires Poisoned(f, sc, order, files, k, a) && Untouched(a, b, sc.Out(order[k]))
    ensures Poisoned(f, sc, order, files, k, b)
  {
    hide SpecOf, HasInputs, SpecStore;
    assert OutputOf(sc.UidOf(order[k]), sc.Out(order[k]));
    assert SameKey(a.sigs, b.sigs, sc.UidOf(order[k]));
  }

  /** The contents that `t` reads. */
  lemma ReadsStay(sc: Script, order: seq<Task>, k: nat, files: map<Node, Content>, a: Store, b: Store)
    requires Buildable(sc, order) && k < |order| && sc.OneOutput(order[k])
    requires LeavesAlone(sc, order[k + 1..], a, b) && SameSources(sc, files, a.files) && SameSources(sc, files, b.files)
    requires CanRead(a.files, sc.Deps(order[k]))
    ensures CanRead(b.files, sc.Deps(order[k]))
            && Contents(b.files, sc.Deps(order[k])) == Contents(a.files, sc.Deps(order[k]))
    ensures Untouched(a, b, sc.Out(order[k]))
  {
    var t := order[k];
    assert t in order;
    hide MadeBy, LeavesAlone, SameSources, Untouched;
    forall d | d in sc.Deps(t)
      ensures SameFile(a.files, b.files, d)
    {
      ReadStays(sc, order, k, files, a, b, d);
    }
    SameReads(a.files, b.files, sc.Deps(t));
    OutStays(sc, order, k, a, b);
  }

  lemma ReadStays(sc: Script, order: seq<Task>, k: nat, files: map<Node, Content>, a: Store, b: Store, d: Node)
    requires Buildable(sc, order) && k < |order| && sc.OneOutput(order[k]) && d in sc.Deps(order[k])
    requires LeavesAlone(sc, order[k + 1..], a, b) && SameSources(sc, files, a.files) && SameSources(sc, files, b.files)
    ensures SameFile(a.files, b.files, d)
  {
    if d in sc.built {
      LaterUnmade(sc, order, k, d);
      hide MadeBy;
      assert Untouched(a, b, d);
    } else {
      assert SameFile(files, a.files, d) && SameFile(files, b.files, d);
    }
  }

  lemma OutStays(sc: Script, order: seq<Task>, k: nat, a: Store, b: Store)
    requires Buildable(sc, order) && k < |order| && sc.OneOutput(order[k]) && LeavesAlone(sc, order[k + 1..], a, b)
    ensures Untouched(a, b, sc.Out(order[k]))
  {
    assert order[k] in order;
    LaterUnmade(sc, order, k, sc.Out(order[k]));
    hide MadeBy, Untouched;
  }

  lemma SameReads(a: map<Node, Content>, b: map<Node, Content>, deps: seq<Node>)
    requires CanRead(a, deps) && forall d :: d in deps ==> SameFile(a, b, d)
    ensures CanRead(b, deps) && Contents(b, deps) == Contents(a, deps)
  {
    assert forall d :: d in deps ==> d in b && b[d] == a[d];
  }

  /** A build over a poisoned file skips its task, and ends without an error and with that file as it was. */
  lemma SkipPoisoned(f: Tool, sc: Script, order: seq<Task>, files: map<Node, Content>, k: nat, b: Store)
    returns (s: Session)
    requires Buildable(sc, order) && Sourced(sc, files) && SameSources(sc, files, b.files) && Stocked(sc.built, b)
    requires k < |order| && HasInputs(sc, SpecStore(sc, order, files, k), order[k]) && sc.OneOutput(order[k])
    requires Poisoned(f, sc, order, files, k, b) && Trusty(f, sc.built, b, {sc.Out(order[k])})
    ensures s.sc == sc && s.Valid(f) && SoundRuns(sc, s.log) && s.ErrorFree() && |s.states| == |s.log| + 1
            && s.Before() == b
    ensures !UpToDate(f, sc, s.After().files, order[k])
  {
    hide Upto, Buildable, Sourced, Stretch, SoundRuns, Stocked, SameSources, Trusty, AllClean, Poisoned, Due,
         HasInputs, Built, Untouched, UpToDate, SpecStore, LeavesAlone;
    var n := sc.Out(order[k]);
    var s0 := StartsUpto(f, sc, order, files, b);
    var s1 := BuildOn(f, sc, order, files, 0, k, s0);
    assert order[0..k] == order[..k];
    EarlierClean(sc, order, k);
    StretchFacts(f, sc, order, files, 0, k, b, Now(s1).store, {n}, n);
    PoisonStays(f, sc, order, files, k, b, Now(s1).store);
    s := SkipsOn(f, sc, order, files, k, b, s1);
  }

  /** The same from the point where the task is looked at. */
  lemma SkipsOn(f: Tool, sc: Script, order: seq<Task>, files: map<Node, Content>, k: nat, b: Store, s1: Session)
    returns (s: Session)
    requires Buildable(sc, order) && Sourced(sc, files) && k < |order| && Upto(f, sc, order, files, k, s1)
    requires HasInputs(sc, SpecStore(sc, order, files, k), order[k]) && sc.OneOutput(order[k])
    requires s1.states != [] && s1.states[0] == Build(b, map[], map[]) && SoundRuns(sc, s1.log)
    requires Poisoned(f, sc, order, files, k, Now(s1).store) && Trusty(f, sc.built, Now(s1).store, {sc.Out(order[k])})
    ensures s.sc == sc && s.Valid(f) && SoundRuns(sc, s.log) && s.ErrorFree() && |s.states| == |s.log| + 1
            && s.Before() == b
    ensures !UpToDate(f, sc, s.After().files, order[k])
  {
    hide Upto, Buildable, Sourced, Stretch, SoundRuns, Trusty, Poisoned, Due, HasInputs, Built, UpToDate, SpecStore;
    var s2 := Advance(f, sc, order, files, k, s1);
    SkipsIt(f, sc, order, files, k, s1, s2);
    s := BuildOn(f, sc, order, files, k + 1, |order|, s2);
    StaleAtEnd(f, sc, order, files, k, s2, s);
    AllGood(f, sc, order, files, s);
    BuiltStarts(f, s1, s2, order[k]);
  }

  ghost predicate Rotten(f: Tool, sc: Script, t: Task, files: map<Node, Content>) {
    && sc.OneOutput(t) && t in sc.vars && sc.Out(t) in files && CanRead(files, sc.Deps(t))
    && files[sc.Out(t)] != Written(f, sc, files, t)
  }

  lemma SkipsIt(f: Tool, sc: Script, order: seq<Task>, files: map<Node, Content>, k: nat, s: Session, r: Session)
    requires Buildable(sc, order) && Sourced(sc, files) && k < |order| && Upto(f, sc, order, files, k, s)
    requires Due(f, s, order[k]) && r.states != [] && s.states != [] && Built(f, s, r, order[k])
    requires HasInputs(sc, SpecStore(sc, order, files, k), order[k]) && sc.OneOutput(order[k])
    requires Poisoned(f, sc, order, files, k, Now(s).store) && Trusty(f, sc.built, Now(s).store, {sc.Out(order[k])})
    ensures Rotten(f, sc, order[k], Now(r).store.files)
  {
    var t := order[k];
    UptoNext(f, sc, order, files, k, s);
    NextFree(f, s, t);
    TaskFacts(f, sc, order, files, k, s);
    WrittenMeans(f, sc, Now(s).store, t, {sc.Out(t)});
    hide Upto, Buildable, Sourced, Due, SpecStore, Trusty, TaskSig, HasInputs, Meaning, Written, CanRead, Later,
         SigsKept;
    assert Current(sc, Now(s).store, t);
  }

  lemma StaleAtEnd(f: Tool, sc: Script, order: seq<Task>, files: map<Node, Content>, k: nat, s: Session, r: Session)
    requires Buildable(sc, order) && k < |order| && Upto(f, sc, order, files, k + 1, s)
             && Upto(f, sc, order, files, |order|, r)
    requires s.states != [] && r.states != []
             && Stretch(f, sc, order, files, k + 1, |order|, Now(s).store, Now(r).store)
    requires Rotten(f, sc, order[k], Now(s).store.files)
    ensures !UpToDate(f, sc, r.After().files, order[k])
  {
    hide Going, Specs, Trusty, AllStored, KeepsTrusty, Buildable, LeavesAlone;
    assert order[k + 1..|order|] == order[k + 1..];
    ReadsStay(sc, order, k, files, Now(s).store, Now(r).store);
  }

  /** The two scripts have these tasks in common. */
  ghost predicate Agree(a: Script, c: Script, ts: seq<Task>) {
    a.built == c.built && forall t :: t in ts ==> SameTask(a, c, t)
  }

  ghost predicate SameTask(a: Script, c: Script, t: Task) {
    t in a.info && t in c.info && a.info[t] == c.info[t] && t in a.vars && t in c.vars && a.vars[t] == c.vars[t]
  }

  lemma {:induction false} SpecsAgree(a: Script, oa: seq<Task>, c: Script, oc: seq<Task>, files: map<Node, Content>,
                                      k: nat)
    requires k <= |oa| && k <= |oc| && oa[..k] == oc[..k] && Agree(a, c, oa[..k])
    ensures Specs(a, oa, files, k) == Specs(c, oc, files, k)
    decreases k
  {
    if k > 0 {
      assert oa[..k - 1] == oa[..k][..k - 1] == oc[..k - 1];
      var t := oa[k - 1];
      assert t == oa[..k][k - 1] == oc[..k][k - 1] == oc[k - 1] && SameTask(a, c, t);
      SpecsAgree(a, oa, c, oc, files, k - 1);
      hide SameTask, Agree;
      SigsAgree(a, c, SpecStore(a, oa, files, k - 1), t);
    }
  }

  lemma SigsAgree(a: Script, c: Script, s: Store, t: Task)
    requires SameTask(a, c, t) && a.built == c.built
    ensures a.OneOutput(t) == c.OneOutput(t) && (a.OneOutput(t) ==> a.Out(t) == c.Out(t)) && a.UidOf(t) == c.UidOf(t)
    ensures HasInputs(a, s, t) == HasInputs(c, s, t) && (HasInputs(a, s, t) ==> TaskSig(a, s, t) == TaskSig(c, s, t))
  {
    assert a.Deps(t) == c.Deps(t);
    assert forall d :: HasSig(a, s, d) == HasSig(c, s, d);
    if HasInputs(a, s, t) {
      var deps := a.Deps(t);
      assert seq(|deps|, i requires 0 <= i < |deps| => SigNow(a, s, deps[i]))
        == seq(|deps|, i requires 0 <= i < |deps| => SigNow(c, s, deps[i]));
    }
  }

  /** The task in place `k` of `a` makes a file that the task in place `j` of `b` makes under another uid; `c` has
      that task again, and all that comes before it. */
  ghost predicate ChangedBack(a: Script, oa: seq<Task>, b: Script, ob: seq<Task>, c: Script, oc: seq<Task>, k: nat,
                              j: nat) {
    && Buildable(a, oa) && Buildable(b, ob) && Buildable(c, oc) && a.built == b.built == c.built
    && k < |oa| && k < |oc| && j < |ob| && oa[..k + 1] == oc[..k + 1] && Agree(a, c, oa[..k + 1])
    && a.OneOutput(oa[k]) && b.OneOutput(ob[j]) && a.Out(oa[k]) == b.Out(ob[j]) && a.UidOf(oa[k]) != b.UidOf(ob[j])
  }

  lemma SourcesMoved(sc: Script, a: map<Node, Content>, b: map<Node, Content>)
    requires Sourced(sc, a) && SameSources(sc, a, b)
    ensures Sourced(sc, b)
  {
    forall t | t in sc.info
      ensures HasSources(sc, b, t)
    {
      assert HasSources(sc, a, t);
      forall d | d in sc.Deps(t) && d !in sc.built
        ensures d in b
      {
        assert SameFile(a, b, d);
      }
    }
  }

  lemma SourcesTwice(sc: Script, a: map<Node, Content>, b: map<Node, Content>, c: map<Node, Content>)
    requires SameSources(sc, a, b) && SameSources(sc, b, c)
    ensures SameSources(sc, a, c)
  {
    forall n | n !in sc.built
      ensures SameFile(a, c, n)
    {
      assert SameFile(a, b, n) && SameFile(b, c, n);
    }
  }

  /** The first build of such a history: all of `a`, from scratch. */
  lemma FirstBuild(f: Tool, a: Script, oa: seq<Task>, files: map<Node, Content>, k: nat) returns (s: Session)
    requires Buildable(a, oa) && Sourced(a, files) && k < |oa|
    ensures s.sc == a && s.Valid(f) && SoundRuns(a, s.log) && |s.states| == |s.log| + 1 && s.Before().sigs == map[]
    ensures Stocked(a.built, s.After()) && SameSources(a, files, s.After().files) && Trusty(f, a.built, s.After(), {})
    ensures a.OneOutput(oa[k]) && HasInputs(a, SpecStore(a, oa, files, k), oa[k])
    ensures var n, g := a.Out(oa[k]), SpecOf(a, oa, files, k);
      && n in s.After().nodeSig && s.After().nodeSig[n] == g
      && a.UidOf(oa[k]) in s.After().sigs && s.After().sigs[a.UidOf(oa[k])] == g
    ensures forall u :: u in s.After().sigs && OutputOf(u, a.Out(oa[k])) ==> u == a.UidOf(oa[k])
  {
    hide Upto, Buildable, Sourced, Stretch, SoundRuns, Stocked, SameSources, Trusty, HasInputs, Session.Valid, Specs,
         SpecOf, OutputOf;
    var b := Store(map[], map[], files);
    EmptyStore(f, a.built, b);
    s := WholeBuild(f, a, oa, b);
    AllGood(f, a, oa, files, s);
    SpecStays(a, oa, files, k, |oa|);
    FirstFacts(f, a, oa, files, k, s, b);
    OwnUids(f, a, oa, s, k);
  }

  lemma EmptyStore(f: Tool, built: set<Node>, b: Store)
    requires b.nodeSig == map[]
    ensures Stocked(built, b) && Trusty(f, built, b, {})
  {
  }

  lemma FirstFacts(f: Tool, a: Script, oa: seq<Task>, files: map<Node, Content>, k: nat, s: Session, b: Store)
    requires Buildable(a, oa) && k < |oa| && s.states != [] && Upto(f, a, oa, files, |oa|, s)
    requires Stretch(f, a, oa, files, 0, |oa|, b, s.After()) && Trusty(f, a.built, b, {})
    requires a.OneOutput(oa[k]) && a.Out(oa[k]) in Specs(a, oa, files, |oa|)
    ensures Trusty(f, a.built, s.After(), {})
    ensures var n, g := a.Out(oa[k]), Specs(a, oa, files, |oa|)[a.Out(oa[k])];
      && n in s.After().nodeSig && s.After().nodeSig[n] == g
      && a.UidOf(oa[k]) in s.After().sigs && s.After().sigs[a.UidOf(oa[k])] == g
  {
    hide Specs, Trusty, LeavesAlone, Going, SameSources;
    assert oa[0..|oa|] == oa;
    forall t | t in oa
      ensures Clean(a, t, {})
    {
    }
    assert Stores(a, oa, files, |oa|, s.After(), oa[k]);
    assert HasSpec(a, oa, files, |oa|, s.After(), a.Out(oa[k]));
  }

  lemma OwnUids(f: Tool, a: Script, oa: seq<Task>, s: Session, k: nat)
    requires s.Valid(f) && s.sc == a && |s.states| == |s.log| + 1 && s.Before().sigs == map[] && a.Valid()
    requires k < |oa| && a.OneOutput(oa[k])
    ensures forall u :: u in s.After().sigs && OutputOf(u, a.Out(oa[k])) ==> u == a.UidOf(oa[k])
  {
    hide Session.Valid, Script.Valid, OutputOf, Under;
    var h, n := [s], a.Out(oa[k]);
    SessionUses(f, h, 0, |s.log|);
    forall u | u in s.After().sigs && OutputOf(u, n)
      ensures u == a.UidOf(oa[k])
    {
      assert InUse(h, 1, u);
      var i, m :| 0 <= i < 1 && Under(h[i].sc, m, u);
      UidUnique(a, m, u, u);
      SameOutput(u, m, n);
      OwnUid(a, oa[k]);
      UidUnique(a, n, u, a.UidOf(oa[k]));
    }
  }

  lemma SameOutput(u: Uid, m: Node, n: Node)
    requires OutputOf(u, m) && OutputOf(u, n)
    ensures m == n
  {
  }

  lemma OwnUid(sc: Script, t: Task)
    requires sc.OneOutput(t)
    ensures Under(sc, sc.Out(t), sc.UidOf(t)) && OutputOf(sc.UidOf(t), sc.Out(t))
  {
    assert sc.Makes(t, sc.Out(t));
  }

  /** What the failed build under another uid leaves for the next one. */
  lemma PoisonLeft(f: Tool, a: Script, oa: seq<Task>, b: Script, ob: seq<Task>, c: Script, oc: seq<Task>, k: nat,
                   j: nat,
                   files: map<Node, Content>, s: Store, r: Store, g: Content)
    requires ChangedBack(a, oa, b, ob, c, oc, k, j) && Sourced(c, files)
    requires HasInputs(a, SpecStore(a, oa, files, k), oa[k])
    requires var n, x := a.Out(oa[k]), SpecOf(a, oa, files, k);
      && n in s.nodeSig && s.nodeSig[n] == x && a.UidOf(oa[k]) in s.sigs && s.sigs[a.UidOf(oa[k])] == x
           && g != Meaning(f, x)
    requires Failure(f, b, s, r, ob[j], g)
    ensures c.OneOutput(oc[k]) && HasInputs(c, SpecStore(c, oc, files, k), oc[k]) && c.Out(oc[k]) == b.Out(ob[j])
    ensures Poisoned(f, c, oc, files, k, r)
  {
    hide Specs, Buildable, Sourced, HasInputs, TaskSig, Trusty, Stocked, SameSources, Meaning;
    assert oa[..k] == oa[..k + 1][..k] == oc[..k] && oc[k] == oc[..k + 1][k] == oa[k];
    assert SameTask(a, c, oa[..k + 1][k]);
    SpecsAgree(a, oa, c, oc, files, k);
    SigsAgree(a, c, SpecStore(a, oa, files, k), oa[k]);
    OwnUid(a, oa[k]);
    assert SameKey(s.sigs, r.sigs, a.UidOf(oa[k]));
  }

  lemma BuildsThree(f: Tool, s1: Session, s2: Session, s3: Session)
    requires s1.Valid(f) && s2.Valid(f) && s3.Valid(f)
    requires |s1.states| == |s1.log| + 1 && |s2.states| == |s2.log| + 1 && |s3.states| == |s3.log| + 1
    requires s1.sc.built == s2.sc.built == s3.sc.built && s1.Before().sigs == map[]
    requires Edited(s1.sc.built, s1.After(), s2.Before()) && Edited(s1.sc.built, s2.After(), s3.Before())
    ensures Builds(f, [s1, s2, s3])
  {
    hide Session.Valid, Edited;
  }

  lemma ThreeBuilds(f: Tool, s1: Session, s2: Session, s3: Session, t: Task)
    requires s1.Valid(f) && s2.Valid(f) && s3.Valid(f)
    requires |s1.states| == |s1.log| + 1 && |s2.states| == |s2.log| + 1 && |s3.states| == |s3.log| + 1
    requires SoundRuns(s1.sc, s1.log) && SoundRuns(s2.sc, s2.log) && SoundRuns(s3.sc, s3.log)
    requires s1.sc.built == s2.sc.built == s3.sc.built && s1.Before().sigs == map[]
    requires Edited(s1.sc.built, s1.After(), s2.Before()) && Edited(s1.sc.built, s2.After(), s3.Before())
    requires s3.ErrorFree() && t in s3.sc.info && !UpToDate(f, s3.sc, s3.After().files, t)
    ensures GoesStale(f, [s1, s2, s3], [s1.sc, s2.sc, s3.sc])
  {
    BuildsThree(f, s1, s2, s3);
    hide Session.Valid, Session.ErrorFree, SoundRuns, Edited, UpToDate, Builds;
    var h := [s1, s2, s3];
    assert h[2] == s3;
  }

  lemma NotEdited(built: set<Node>, s: Store)
    ensures Edited(built, s, s)
  {
  }

  lemma Longer(x: Content)
    ensures x + "!" != x
  {
    assert |x + "!"| == |x| + 1;
  }

  /** A uid that is given up and taken up again does harm, whatever the tools and the scripts: when the task is
      as it was before the change, with all that goes into it, there are a build before the change, a failing
      one after it, and an error-free one after the return that keeps what the failing one left. */
  lemma ReturnGoesStale(f: Tool, a: Script, oa: seq<Task>, b: Script, ob: seq<Task>, c: Script, oc: seq<Task>, k: nat,
                        j: nat,
                        files: map<Node, Content>)
    requires ChangedBack(a, oa, b, ob, c, oc, k, j) && Sourced(a, files) && Sourced(b, files) && Sourced(c, files)
    ensures exists h :: GoesStale(f, h, [a, b, c])
  {
    hide Sourced, Buildable, SoundRuns, Stocked, SameSources, Trusty, HasInputs, Session.Valid, Session.ErrorFree,
         Specs, SpecOf, Failure, Poisoned, UpToDate, OutputOf, Agree, GoesStale, Edited, Meaning;
    var s1 := FirstBuild(f, a, oa, files, k);
    var n, x := a.Out(oa[k]), SpecOf(a, oa, files, k);
    var g := Meaning(f, x) + "!";
    Longer(Meaning(f, x));
    SourcesAlike(a, b, files, s1.After().files);
    SourcesMoved(b, files, s1.After().files);
    OwnUid(b, ob[j]);
    var s2 := FailAt(f, b, ob, s1.After(), j, g);
    PoisonLeft(f, a, oa, b, ob, c, oc, k, j, files, s1.After(), s2.After(), g);
    FailureFacts(f, b, c, files, s1.After(), s2.After(), ob[j], g);
    var s3 := SkipPoisoned(f, c, oc, files, k, s2.After());
    InScript(c, oc, k);
    NotEdited(a.built, s1.After());
    NotEdited(a.built, s2.After());
    ThreeBuilds(f, s1, s2, s3, oc[k]);
  }

  lemma InScript(c: Script, oc: seq<Task>, k: nat)
    requires Buildable(c, oc) && k < |oc|
    ensures oc[k] in c.info
  {
    assert oc[k] in oc;
  }

  lemma SourcesAlike(a: Script, b: Script, files: map<Node, Content>, r: map<Node, Content>)
    requires a.built == b.built
    ensures SameSources(a, files, r) == SameSources(b, files, r)
  {
  }

  lemma FailureFacts(f: Tool, b: Script, c: Script, files: map<Node, Content>, s: Store, r: Store, t: Task, g: Content)
    requires b.built == c.built && b.OneOutput(t) && Failure(f, b, s, r, t, g) && SameSources(b, files, s.files)
    ensures Stocked(c.built, r) && Trusty(f, c.built, r, {b.Out(t)}) && SameSources(c, files, r.files)
  {
    hide Stocked, Trusty, SameSources;
    SourcesTwice(b, files, s.files, r.files);
    SourcesAlike(b, c, files, r.files);
  }

  // --- exactly when

  lemma PlaceOf(sc: Script, order: seq<Task>, t: Task) returns (k: nat)
    requires Buildable(sc, order) && t in sc.info
    ensures k < |order| && order[k] == t
  {
    assert t in order;
    k :| 0 <= k < |order| && order[k] == t;
  }

  /** Going from script `a` to `b` and back is safe, whatever happens in the three builds, exactly when no output
      goes back to a uid it had before. */
  lemma GoingBackIsExact(f: Tool, a: Script, oa: seq<Task>, b: Script, ob: seq<Task>, files: map<Node, Content>)
    requires Buildable(a, oa) && Buildable(b, ob) && a.built == b.built && Sourced(a, files) && Sourced(b, files)
    ensures (exists h :: GoesStale(f, h, [a, b, a])) <==> Returns(a, b, a)
  {
    hide Sourced, UpToDate, SoundRuns, Edited, Session.Valid, Session.ErrorFree;
    if Returns(a, b, a) {
      var n, u, v :| Under(a, n, u) && Under(b, n, v) && Under(a, n, u) && u != v;
      var t :| a.Makes(t, n) && a.UidOf(t) == u;
      var x :| b.Makes(x, n) && b.UidOf(x) == v;
      var k := PlaceOf(a, oa, t);
      var j := PlaceOf(b, ob, x);
      SelfAgrees(a, oa, k);
      hide *;
      GoesBack(a, oa, b, ob, k, j);
      ReturnGoesStale(f, a, oa, b, ob, a, oa, k, j, files);
    } else {
      forall h | GoesStale(f, h, [a, b, a])
        ensures false
      {
        StaleReturns(f, h, a, b);
      }
    }
  }

  lemma SelfAgrees(a: Script, oa: seq<Task>, k: nat)
    requires Buildable(a, oa) && k < |oa|
    ensures Agree(a, a, oa[..k + 1])
  {
    forall t | t in oa[..k + 1]
      ensures SameTask(a, a, t)
    {
      assert t in oa;
    }
  }

  lemma GoesBack(a: Script, oa: seq<Task>, b: Script, ob: seq<Task>, k: nat, j: nat)
    requires Buildable(a, oa) && Buildable(b, ob) && a.built == b.built && k < |oa| && j < |ob|
             && Agree(a, a, oa[..k + 1])
    requires a.OneOutput(oa[k]) && b.OneOutput(ob[j]) && a.Out(oa[k]) == b.Out(ob[j])
             && a.UidOf(oa[k]) != b.UidOf(ob[j])
    ensures ChangedBack(a, oa, b, ob, a, oa, k, j)
  {
    hide Buildable, Agree;
  }

  lemma StaleReturns(f: Tool, h: seq<Session>, a: Script, b: Script)
    requires GoesStale(f, h, [a, b, a])
    ensures Returns(a, b, a)
  {
    hide UpToDate, SoundRuns, Edited, Session.Valid, Session.ErrorFree, Returns, Builds;
    assert h[0].sc == [a, b, a][0] && h[1].sc == [a, b, a][1] && h[2].sc == [a, b, a][2];
    if !Returns(a, b, a) {
      assert NoReturn(h);
      AllUpToDate(f, h, h[2]);
      assert false;
    }
  }
}
