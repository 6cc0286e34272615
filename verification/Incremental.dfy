/** An incremental build gives what a clean build gives. The builds of a project share what `store` keeps;
    in between, sources are edited and outputs deleted. */
module Incremental {
  import opened Basics
  import opened TaskOrder
  import opened Schedule
  import opened ScheduleProofs
  import opened Deadlock
  import opened Signatures

  /** `q` writes a file that `t` reads. */
  ghost predicate Feeds(sc: Script, q: Task, t: Task) {
    t in sc.info && sc.OneOutput(q) && sc.Out(q) in sc.Deps(t)
  }

  /** The task has run well or was skipped because its signature was found. (A task whose status raised an
      exception may be recorded as skipped; it is not good.) */
  ghost predicate Good(log: seq<Event>, t: Task) {
    if log == [] then false
    else
      var e := log[|log| - 1];
      if e.task != t then Good(log[..|log| - 1], t)
      else e.Skip? || (e.End? && e.status == Success)
  }

  lemma GoodAfter(log: seq<Event>, e: Event)
    ensures forall t :: t != e.task ==> Good(log + [e], t) == Good(log, t)
    ensures Good(log + [e], e.task) <==> e.Skip? || (e.End? && e.status == Success)
  {
    assert (log + [e])[..|log + [e]| - 1] == log;
  }

  lemma {:induction false} GoodIsDone(log: seq<Event>, t: Task)
    requires Good(log, t)
    ensures StageOf(log, t).Done?
    decreases |log|
  {
    var n := |log| - 1;
    if log[n].task != t {
      GoodIsDone(log[..n], t);
    }
  }

  /** When the status of a task has been decided, the tasks that feed it are done, well or not. */
  ghost predicate InputsDone(sc: Script, log: seq<Event>) {
    forall q, t :: Feeds(sc, q, t) ==> (StageOf(log, t) != Idle ==> StageOf(log, q).Done?)
  }

  ghost predicate FeedersDone(sc: Script, log: seq<Event>, t: Task) {
    forall q :: Feeds(sc, q, t) ==> StageOf(log, q).Done?
  }

  /** The scheduler decides about a task only when the tasks that feed it are done. */
  ghost predicate InputsFirst(sc: Script, log: seq<Event>) {
    forall i :: 0 <= i < |log| && Decision(log[i]) ==> FeedersDone(sc, log[..i], log[i].task)
  }

  lemma InputsDoneAt(sc: Script, log: seq<Event>, i: nat)
    requires Lifecycle(log) && InputsFirst(sc, log) && i <= |log|
    ensures InputsDone(sc, log[..i])
  {
    forall q, t | Feeds(sc, q, t) && StageOf(log[..i], t) != Idle
      ensures StageOf(log[..i], q).Done?
    {
      var j := DecidedEarlier(log, t, i);
      assert FeedersDone(sc, log[..j], t);
      DoneStays(log, q, j, i);
    }
  }

  /** A point of the log before `i` at which the status of `t` is decided. */
  lemma DecidedEarlier(log: seq<Event>, t: Task, i: nat) returns (k: nat)
    requires Lifecycle(log) && i <= |log| && StageOf(log[..i], t) != Idle
    ensures k < i && Decision(log[k]) && log[k].task == t
  {
    LifecyclePrefix(log, i);
    k := DecisionBefore(log[..i], t);
    assert log[..i][k] == log[k];
  }

  ghost predicate InputsGood(sc: Script, log: seq<Event>, t: Task) {
    forall q :: Feeds(sc, q, t) ==> Good(log, q)
  }

  /** A command that ends well has not been given the output of a task that failed in the same build. */
  ghost predicate SoundRun(sc: Script, log: seq<Event>, e: Event) {
    e.End? && e.status == Success ==> InputsGood(sc, log, e.task)
  }

  ghost predicate SoundRuns(sc: Script, log: seq<Event>) {
    forall i :: 0 <= i < |log| ==> SoundRun(sc, log[..i], log[i])
  }

  /** One build: the script, the scheduler's log, and what every event did. */
  datatype Session = Session(sc: Script, log: seq<Event>, states: seq<Build>)
  {
    ghost predicate Valid(f: Tool) {
      && sc.Valid()
      && |states| == |log| + 1
      && states[0].nodeCache == map[] && states[0].sigOf == map[]
      && (forall i :: 0 <= i < |log| ==> Does(sc, f, states[i], log[i], states[i + 1]))
      && Lifecycle(log) && InputsFirst(sc, log)
    }

    ghost function Before(): Store
      requires |states| > 0
    {
      states[0].store
    }

    ghost function After(): Store
      requires |states| > 0
    {
      states[|states| - 1].store
    }

    /** Every task ran well or was skipped. */
    ghost predicate ErrorFree() {
      forall t :: t in sc.info ==> Good(log, t)
    }
  }

  /** A task that is done stays as good, or as bad, as it is. */
  lemma {:induction false} GoodStays(log: seq<Event>, t: Task, j: nat, i: nat)
    requires Lifecycle(log) && j <= i <= |log| && StageOf(log[..j], t).Done?
    ensures Good(log[..i], t) <==> Good(log[..j], t)
    decreases i - j
  {
    if j < i {
      assert InStage(log[..i - 1], log[i - 1]);
      GoodStays(log, t, j, i - 1);
      DoneStays(log, t, j, i - 1);
      assert log[..i] == log[..i - 1] + [log[i - 1]];
      GoodAfter(log[..i - 1], log[i - 1]);
    }
  }

  /** In an error-free build, no command has been given the output of a failed task. */
  lemma ErrorFreeSound(f: Tool, s: Session)
    requires s.Valid(f) && s.ErrorFree()
    ensures SoundRuns(s.sc, s.log)
  {
    hide Lifecycle, InputsFirst, Does, Script.Valid;
    forall i, q | 0 <= i < |s.log| && s.log[i].End? && Feeds(s.sc, q, s.log[i].task)
      ensures Good(s.log[..i], q)
    {
      FeederGood(s.sc, s.log, q, i);
    }
  }

  lemma FeederGood(sc: Script, log: seq<Event>, q: Task, i: nat)
    requires Lifecycle(log) && InputsFirst(sc, log) && i < |log| && log[i].End? && Feeds(sc, q, log[i].task)
             && Good(log, q)
    ensures Good(log[..i], q)
  {
    hide InputsFirst, Feeds;
    assert InStage(log[..i], log[i]);
    InputsDoneAt(sc, log, i);
    GoodStays(log, q, i, |log|);
    assert log[..|log|] == log;
  }

  /** Which files belong to the build directory, and the `uid` under which each of them is, or was last,
      produced. */
  datatype Layout = Layout(built: set<Node>, uidOf: map<Node, Uid>)
  {
    ghost predicate Valid() {
      && uidOf.Keys <= built
      && forall n :: n in uidOf ==> uidOf[n].paths != [] && uidOf[n].paths[|uidOf[n].paths| - 1] == n
    }

    ghost predicate Fits(sc: Script) {
      && sc.built == built
      && forall t :: sc.OneOutput(t) ==> sc.Out(t) in uidOf && uidOf[sc.Out(t)] == sc.UidOf(t)
    }
  }

  ghost predicate Trusted(l: Layout, s: Store, n: Node) {
    n in l.uidOf && l.uidOf[n] in s.sigs && n in s.nodeSig && s.nodeSig[n] == s.sigs[l.uidOf[n]]
  }

  ghost predicate Faithful(f: Tool, s: Store, n: Node) {
    n in s.files && n in s.nodeSig && s.files[n] == Meaning(f, s.nodeSig[n])
  }

  /** A file whose stored signatures agree, so that its task may be skipped, holds what the signature stands for. */
  ghost predicate Coherent(f: Tool, l: Layout, s: Store) {
    forall n :: Trusted(l, s, n) ==> Faithful(f, s, n)
  }

  // --- the invariant of a build

  /** A cached signature is that of the file as it is, or of a file whose task is done. */
  ghost predicate CachedWell(sc: Script, log: seq<Event>, b: Build, n: Node)
    requires n in b.nodeCache
  {
    if n in sc.built then
      n in b.store.nodeSig && b.nodeCache[n] == b.store.nodeSig[n] && forall q :: sc.Makes(q, n) ==>
        StageOf(log, q).Done?
    else
      n in b.store.files && b.nodeCache[n] == FileHash(b.store.files[n])
  }

  ghost function CacheOf(cache: map<Node, Sig>, deps: seq<Node>): seq<Sig>
    requires forall d :: d in deps ==> d in cache
  {
    seq(|deps|, i requires 0 <= i < |deps| => cache[deps[i]])
  }

  ghost predicate SignedWell(sc: Script, b: Build, t: Task)
    requires t in b.sigOf
  {
    && t in sc.info && t in sc.vars
    && (forall d :: d in sc.Deps(t) ==> d in b.nodeCache)
    && b.sigOf[t] == TaskHash(sc.info[t].kind.code, CacheOf(b.nodeCache, sc.Deps(t)), sc.vars[t])
  }

  ghost predicate OutputWell(sc: Script, f: Tool, b: Build, t: Task) {
    && t in b.sigOf && sc.OneOutput(t)
    && Faithful(f, b.store, sc.Out(t)) && b.store.nodeSig[sc.Out(t)] == b.sigOf[t]
  }

  ghost predicate CachesWell(sc: Script, log: seq<Event>, b: Build) {
    forall n :: n in b.nodeCache ==> CachedWell(sc, log, b, n)
  }

  ghost predicate TasksSigned(sc: Script, log: seq<Event>, b: Build) {
    && (forall t :: t in b.sigOf ==> SignedWell(sc, b, t) && StageOf(log, t) != Idle)
    && (forall t :: StageOf(log, t) == Queued || StageOf(log, t) == Started ==> t in b.sigOf)
    && (forall t :: StageOf(log, t) == Started ==> sc.OneOutput(t) && sc.UidOf(t) !in b.store.sigs)
  }

  ghost predicate OutputsWell(sc: Script, f: Tool, log: seq<Event>, b: Build) {
    forall t :: Good(log, t) ==> OutputWell(sc, f, b, t)
  }

  ghost predicate BuildInv(f: Tool, l: Layout, sc: Script, log: seq<Event>, b: Build) {
    Coherent(f, l, b.store) && CachesWell(sc, log, b) && TasksSigned(sc, log, b) && OutputsWell(sc, f, log, b)
  }

  // --- computing signatures

  lemma PeekStable(sc: Script, b: Build, n: Node, m: Node)
    ensures Peek(sc, Remember(sc, b, n), m) == Peek(sc, b, m)
  {
  }

  lemma {:induction false} RememberedValues(sc: Script, b: Build, deps: seq<Node>)
    ensures forall n :: n in b.nodeCache ==> n in RememberAll(sc, b, deps).nodeCache
                                             && RememberAll(sc, b, deps).nodeCache[n] == b.nodeCache[n]
    ensures forall n :: n in RememberAll(sc, b, deps).nodeCache ==>
      Peek(sc, b, n) == Some(RememberAll(sc, b, deps).nodeCache[n])
    ensures forall n :: n in RememberAll(sc, b, deps).nodeCache ==> n in b.nodeCache || n in deps
    decreases |deps|
  {
    if deps != [] && Peek(sc, b, deps[0]).Some? {
      var r := Remember(sc, b, deps[0]);
      RememberedValues(sc, r, deps[1..]);
      forall n
        ensures Peek(sc, r, n) == Peek(sc, b, n)
      {
        PeekStable(sc, b, deps[0], n);
      }
    }
  }

  lemma {:induction false} DepSigsCached(sc: Script, b: Build, deps: seq<Node>, d: nat)
    requires DepSigs(sc, b, deps).Some? && d < |deps|
    ensures |DepSigs(sc, b, deps).value| == |deps|
    ensures deps[d] in RememberAll(sc, b, deps).nodeCache
    ensures DepSigs(sc, b, deps).value[d] == RememberAll(sc, b, deps).nodeCache[deps[d]]
    decreases |deps|
  {
    var r := Remember(sc, b, deps[0]);
    RememberedValues(sc, r, deps[1..]);
    if |deps| > 1 {
      DepSigsCached(sc, r, deps[1..], if d == 0 then 0 else d - 1);
    }
  }

  lemma SignedTask(sc: Script, b: Build, t: Task)
    requires t in sc.info && t in sc.vars && t !in b.sigOf && Signature(sc, b, t).Some?
    ensures t in Signed(sc, b, t).sigOf && Signed(sc, b, t).sigOf[t] == Signature(sc, b, t).value
    ensures SignedWell(sc, Signed(sc, b, t), t)
  {
    var deps, r := sc.Deps(t), Signed(sc, b, t);
    var gs := DepSigs(sc, b, deps).value;
    forall d | 0 <= d < |deps|
      ensures |gs| == |deps| && deps[d] in r.nodeCache && gs[d] == r.nodeCache[deps[d]]
    {
      DepSigsCached(sc, b, deps, d);
    }
    assert gs == CacheOf(r.nodeCache, deps);
  }

  // --- every event keeps the invariant

  /** What a decision does, skip or not. */
  lemma DecisionSigns(sc: Script, f: Tool, b: Build, e: Event, c: Build)
    requires Does(sc, f, b, e, c) && Decision(e)
    ensures c == Signed(sc, b, e.task) && e.task in sc.info && e.task in sc.vars
  {
  }

  lemma SignedCoherent(f: Tool, l: Layout, sc: Script, b: Build, t: Task)
    requires Coherent(f, l, b.store) && l.Valid() && l.Fits(sc) && t in sc.info && t in sc.vars
    ensures Coherent(f, l, Signed(sc, b, t).store)
  {
    SignedKeeps(sc, b, t);
    var c := Signed(sc, b, t);
    forall n | Trusted(l, c.store, n)
      ensures Faithful(f, c.store, n)
    {
      assert Trusted(l, b.store, n);
    }
  }

  lemma SignedCaches(f: Tool, l: Layout, sc: Script, log: seq<Event>, b: Build, e: Event)
    requires sc.Valid() && CachesWell(sc, log, b) && e.task in sc.info && e.task in sc.vars && Decision(e)
    requires e.task !in b.sigOf && InStage(log, e) && InputsDone(sc, log + [e])
    ensures CachesWell(sc, log + [e], Signed(sc, b, e.task))
  {
    var t := e.task;
    var c := Signed(sc, b, t);
    StageAfter(log, e);
    GoodAfter(log, e);
    SignedKeeps(sc, b, t);
    RememberedValues(sc, b, sc.Deps(t));
    forall n | n in c.nodeCache
      ensures CachedWell(sc, log + [e], c, n)
    {
      if n in b.nodeCache {
        assert CachedWell(sc, log, b, n);
      } else if n in sc.built {
        assert forall q :: sc.Makes(q, n) ==> Feeds(sc, q, t);
      }
    }
  }

  lemma DecisionStep(f: Tool, l: Layout, sc: Script, log: seq<Event>, b: Build, e: Event, c: Build)
    requires sc.Valid() && l.Valid() && l.Fits(sc) && BuildInv(f, l, sc, log, b)
    requires Decision(e) && InStage(log, e) && InputsDone(sc, log + [e]) && Does(sc, f, b, e, c)
    ensures BuildInv(f, l, sc, log + [e], c)
  {
    hide Coherent, InputsDone, CachesWell, OutputsWell, Script.Valid, Layout.Valid, Layout.Fits;
    DecisionSigns(sc, f, b, e, c);
    SignedCaches(f, l, sc, log, b, e);
    SignedCoherent(f, l, sc, b, e.task);
    DecisionTasks(sc, f, log, b, e, c);
    DecisionOutputs(f, l, sc, log, b, e, c);
  }

  lemma DecisionTasks(sc: Script, f: Tool, log: seq<Event>, b: Build, e: Event, c: Build)
    requires TasksSigned(sc, log, b) && Decision(e) && InStage(log, e) && Does(sc, f, b, e, c)
    ensures TasksSigned(sc, log + [e], c)
  {
    hide SignedWell;
    SignedOthers(sc, b, e.task);
    SignedKeeps(sc, b, e.task);
    StageAfter(log, e);
    GoodAfter(log, e);
  }

  lemma DecisionOutputs(f: Tool, l: Layout, sc: Script, log: seq<Event>, b: Build, e: Event, c: Build)
    requires sc.Valid() && l.Valid() && l.Fits(sc) && Coherent(f, l, b.store) && OutputsWell(sc, f, log, b)
    requires e.task !in b.sigOf && Decision(e) && InStage(log, e) && Does(sc, f, b, e, c)
    ensures OutputsWell(sc, f, log + [e], c)
  {
    hide Coherent, Layout.Valid, Layout.Fits;
    var t := e.task;
    SignedOthers(sc, b, t);
    StageAfter(log, e);
    GoodAfter(log, e);
    SignedKeeps(sc, b, t);
    if e.Skip? {
      SkipOutput(f, l, sc, b, t);
    }
    forall x | Good(log + [e], x) && x != t
      ensures OutputWell(sc, f, c, x)
    {
      assert OutputWell(sc, f, b, x);
      assert sc.Out(x) in sc.built;
    }
  }

  /** Tasks signed before stay signed as they were. */
  lemma SignedOthers(sc: Script, b: Build, t: Task)
    requires t in sc.info && t in sc.vars && t !in b.sigOf
    ensures forall x :: x in b.sigOf ==> x in Signed(sc, b, t).sigOf && Signed(sc, b, t).sigOf[x] == b.sigOf[x]
    ensures forall x :: x in b.sigOf && SignedWell(sc, b, x) ==> SignedWell(sc, Signed(sc, b, t), x)
    ensures forall x :: x in Signed(sc, b, t).sigOf ==> x in b.sigOf || (x == t && SignedWell(sc, Signed(sc, b, t), t))
    ensures Signature(sc, b, t).Some? ==>
      t in Signed(sc, b, t).sigOf && Signed(sc, b, t).sigOf[t] == Signature(sc, b, t).value
  {
    var c := Signed(sc, b, t);
    RememberKeeps(sc, b, sc.Deps(t));
    RememberedValues(sc, b, sc.Deps(t));
    if Signature(sc, b, t).Some? {
      SignedTask(sc, b, t);
    }
    forall x | x in b.sigOf && SignedWell(sc, b, x)
      ensures SignedWell(sc, c, x)
    {
      assert x in c.sigOf && c.sigOf[x] == b.sigOf[x];
      assert CacheOf(b.nodeCache, sc.Deps(x)) == CacheOf(c.nodeCache, sc.Deps(x));
    }
  }

  lemma SkipOutput(f: Tool, l: Layout, sc: Script, b: Build, t: Task)
    requires sc.Valid() && l.Valid() && l.Fits(sc) && Coherent(f, l, b.store)
    requires sc.OneOutput(t) && t in sc.vars && t !in b.sigOf && Decide(sc, b, t) == SkipMe
    ensures OutputWell(sc, f, Signed(sc, b, t), t)
  {
    SignedKeeps(sc, b, t);
    SignedTask(sc, b, t);
    assert Trusted(l, b.store, sc.Out(t));
    assert sc.Out(t) in sc.built;
  }

  /** Writing to the output of a task that has started leaves everything alone that is relied upon. */
  lemma ScribbleStep(f: Tool, l: Layout, sc: Script, log: seq<Event>, b: Build, e: Event, c: Build)
    requires sc.Valid() && l.Valid() && l.Fits(sc) && BuildInv(f, l, sc, log, b)
    requires InStage(log, e) && Does(sc, f, b, e, c) && (e.Begin? || (e.End? && e.status != Success))
    ensures BuildInv(f, l, sc, log + [e], c)
  {
    hide Coherent, CachesWell, OutputsWell, TasksSigned, Layout.Valid, Layout.Fits, Script.Valid;
    ScribbleCoherent(f, l, sc, log, b, e, c);
    ScribbleCaches(f, sc, log, b, e, c);
    ScribbleTasks(f, sc, log, b, e, c);
    ScribbleOutputs(f, sc, log, b, e, c);
  }

  lemma ScribbleCoherent(f: Tool, l: Layout, sc: Script, log: seq<Event>, b: Build, e: Event, c: Build)
    requires l.Valid() && l.Fits(sc) && Coherent(f, l, b.store) && TasksSigned(sc, log, b)
    requires InStage(log, e) && Does(sc, f, b, e, c) && (e.Begin? || (e.End? && e.status != Success))
    ensures Coherent(f, l, c.store)
  {
    forall n | Trusted(l, c.store, n)
      ensures Faithful(f, c.store, n)
    {
      assert Trusted(l, b.store, n);
      assert n != sc.Out(e.task);
    }
  }

  lemma ScribbleCaches(f: Tool, sc: Script, log: seq<Event>, b: Build, e: Event, c: Build)
    requires sc.Valid() && CachesWell(sc, log, b)
    requires InStage(log, e) && Does(sc, f, b, e, c) && (e.Begin? || (e.End? && e.status != Success))
    ensures CachesWell(sc, log + [e], c)
  {
    StageAfter(log, e);
    GoodAfter(log, e);
    forall n | n in c.nodeCache
      ensures CachedWell(sc, log + [e], c, n)
    {
      assert CachedWell(sc, log, b, n);
      assert sc.Out(e.task) in sc.built;
    }
  }

  lemma ScribbleTasks(f: Tool, sc: Script, log: seq<Event>, b: Build, e: Event, c: Build)
    requires TasksSigned(sc, log, b)
    requires InStage(log, e) && Does(sc, f, b, e, c) && (e.Begin? || (e.End? && e.status != Success))
    ensures TasksSigned(sc, log + [e], c)
  {
    StageAfter(log, e);
    GoodAfter(log, e);
    forall t | t in b.sigOf
      ensures SignedWell(sc, c, t)
    {
      assert SignedWell(sc, b, t);
    }
  }

  lemma ScribbleOutputs(f: Tool, sc: Script, log: seq<Event>, b: Build, e: Event, c: Build)
    requires sc.Valid() && OutputsWell(sc, f, log, b)
    requires InStage(log, e) && Does(sc, f, b, e, c) && (e.Begin? || (e.End? && e.status != Success))
    ensures OutputsWell(sc, f, log + [e], c)
  {
    StageAfter(log, e);
    GoodAfter(log, e);
    forall x | Good(log + [e], x)
      ensures OutputWell(sc, f, c, x)
    {
      assert OutputWell(sc, f, b, x);
      assert sc.Out(x) != sc.Out(e.task);
    }
  }

  /** What a task about to end well has read is what its signature stands for. */
  lemma ReadsWell(f: Tool, sc: Script, log: seq<Event>, b: Build, t: Task, d: Node)
    requires sc.Valid() && CachesWell(sc, log, b) && OutputsWell(sc, f, log, b)
    requires t in b.sigOf && SignedWell(sc, b, t) && d in sc.Deps(t)
    requires forall q :: Feeds(sc, q, t) ==> Good(log, q)
    ensures d in b.nodeCache && d in b.store.files && b.store.files[d] == Meaning(f, b.nodeCache[d])
  {
    assert CachedWell(sc, log, b, d);
    if d in sc.built {
      var q :| sc.Makes(q, d);
      assert Feeds(sc, q, t);
      assert OutputWell(sc, f, b, q);
    }
  }

  /** The output of a task whose inputs are as its signature has them is what its signature stands for. */
  lemma SignatureMeansOutput(f: Tool, sc: Script, b: Build, t: Task)
    requires t in b.sigOf && SignedWell(sc, b, t)
    requires forall d :: d in sc.Deps(t) ==> d in b.store.files && b.store.files[d] == Meaning(f, b.nodeCache[d])
    ensures CanRead(b.store.files, sc.Deps(t))
    ensures Meaning(f, b.sigOf[t]) == f(sc.info[t].kind.code, sc.vars[t], Contents(b.store.files, sc.Deps(t)))
  {
    var ds := CacheOf(b.nodeCache, sc.Deps(t));
    assert seq(|ds|, i requires 0 <= i < |ds| => Meaning(f, ds[i])) == Contents(b.store.files, sc.Deps(t));
  }

  lemma StoreStep(f: Tool, l: Layout, sc: Script, log: seq<Event>, b: Build, t: Task, c: Build)
    requires sc.Valid() && l.Valid() && l.Fits(sc) && BuildInv(f, l, sc, log, b)
    requires InStage(log, End(t, Success)) && SoundRun(sc, log, End(t, Success)) && Does(sc, f, b, End(t, Success), c)
    ensures BuildInv(f, l, sc, log + [End(t, Success)], c)
  {
    hide Coherent, CachesWell, OutputsWell, TasksSigned, Layout.Valid, Layout.Fits, Script.Valid;
    StoreOutput(f, sc, log, b, t, c);
    StoreCoherent(f, l, sc, b, t, c);
    StoreCaches(f, sc, log, b, t, c);
    StoreTasks(f, sc, log, b, t, c);
    StoreOutputs(f, sc, log, b, t, c);
  }

  lemma StoreOutput(f: Tool, sc: Script, log: seq<Event>, b: Build, t: Task, c: Build)
    requires sc.Valid() && CachesWell(sc, log, b) && OutputsWell(sc, f, log, b) && TasksSigned(sc, log, b)
    requires SoundRun(sc, log, End(t, Success)) && Does(sc, f, b, End(t, Success), c)
    ensures OutputWell(sc, f, c, t)
  {
    forall d | d in sc.Deps(t)
      ensures d in b.nodeCache && d in b.store.files && b.store.files[d] == Meaning(f, b.nodeCache[d])
    {
      ReadsWell(f, sc, log, b, t, d);
    }
    SignatureMeansOutput(f, sc, b, t);
  }

  lemma StoreCoherent(f: Tool, l: Layout, sc: Script, b: Build, t: Task, c: Build)
    requires l.Valid() && l.Fits(sc) && Coherent(f, l, b.store) && OutputWell(sc, f, c, t)
    requires Does(sc, f, b, End(t, Success), c)
    ensures Coherent(f, l, c.store)
  {
    forall n | Trusted(l, c.store, n)
      ensures Faithful(f, c.store, n)
    {
      if n != sc.Out(t) {
        assert l.uidOf[n] != sc.UidOf(t);
        assert Trusted(l, b.store, n);
      }
    }
  }

  lemma StoreCaches(f: Tool, sc: Script, log: seq<Event>, b: Build, t: Task, c: Build)
    requires sc.Valid() && CachesWell(sc, log, b) && InStage(log, End(t, Success)) && Does(sc, f, b, End(t, Success), c)
    ensures CachesWell(sc, log + [End(t, Success)], c)
  {
    StageAfter(log, End(t, Success));
    GoodAfter(log, End(t, Success));
    forall n | n in c.nodeCache
      ensures CachedWell(sc, log + [End(t, Success)], c, n)
    {
      assert CachedWell(sc, log, b, n);
      assert sc.Out(t) in sc.built && sc.Makes(t, sc.Out(t));
    }
  }

  lemma StoreTasks(f: Tool, sc: Script, log: seq<Event>, b: Build, t: Task, c: Build)
    requires sc.Valid() && TasksSigned(sc, log, b) && InStage(log, End(t, Success))
             && Does(sc, f, b, End(t, Success), c)
    ensures TasksSigned(sc, log + [End(t, Success)], c)
  {
    StageAfter(log, End(t, Success));
    GoodAfter(log, End(t, Success));
    forall x | x in b.sigOf
      ensures SignedWell(sc, c, x)
    {
      assert SignedWell(sc, b, x);
    }
    forall x | StageOf(log, x) == Started && x != t
      ensures sc.OneOutput(x) && sc.UidOf(x) != sc.UidOf(t)
    {
      UidsDiffer(sc, x, t);
    }
  }

  /** The output is the last path a `uid` is made of. */
  lemma UidsDiffer(sc: Script, x: Task, t: Task)
    requires sc.Valid() && sc.OneOutput(x) && sc.OneOutput(t) && x != t
    ensures sc.UidOf(x) != sc.UidOf(t)
  {
    var a, b := sc.UidOf(x).paths, sc.UidOf(t).paths;
    assert a[|a| - 1] == sc.Out(x) && b[|b| - 1] == sc.Out(t);
  }

  lemma StoreOutputs(f: Tool, sc: Script, log: seq<Event>, b: Build, t: Task, c: Build)
    requires sc.Valid() && OutputsWell(sc, f, log, b) && OutputWell(sc, f, c, t) && Does(sc, f, b, End(t, Success), c)
    ensures OutputsWell(sc, f, log + [End(t, Success)], c)
  {
    StageAfter(log, End(t, Success));
    GoodAfter(log, End(t, Success));
    forall x | Good(log + [End(t, Success)], x) && x != t
      ensures OutputWell(sc, f, c, x)
    {
      assert OutputWell(sc, f, b, x);
      assert sc.Out(x) != sc.Out(t);
    }
  }

  // --- one build

  lemma {:induction false} SessionKeepsInv(f: Tool, l: Layout, s: Session, i: nat)
    requires s.Valid(f) && l.Valid() && l.Fits(s.sc) && SoundRuns(s.sc, s.log) && i <= |s.log|
    requires Coherent(f, l, s.states[0].store)
    ensures BuildInv(f, l, s.sc, s.log[..i], s.states[i])
    decreases i
  {
    hide Coherent, BuildInv, Layout.Valid, Layout.Fits, Script.Valid, InputsDone, SoundRun, InStage;
    if i == 0 {
      FirstState(f, l, s);
    } else {
      SessionKeepsInv(f, l, s, i - 1);
      SessionStep(f, l, s, i - 1);
    }
  }

  lemma FirstState(f: Tool, l: Layout, s: Session)
    requires |s.states| > 0 && s.states[0].nodeCache == map[] && s.states[0].sigOf == map[]
    requires Coherent(f, l, s.states[0].store)
    ensures BuildInv(f, l, s.sc, s.log[..0], s.states[0])
  {
    assert s.log[..0] == [];
  }

  lemma SessionStep(f: Tool, l: Layout, s: Session, i: nat)
    requires s.Valid(f) && l.Valid() && l.Fits(s.sc) && SoundRuns(s.sc, s.log) && i < |s.log|
    requires BuildInv(f, l, s.sc, s.log[..i], s.states[i])
    ensures BuildInv(f, l, s.sc, s.log[..i + 1], s.states[i + 1])
  {
    hide Coherent, BuildInv, Layout.Valid, Layout.Fits, Script.Valid, InputsDone, InputsFirst, SoundRun, Does;
    var e := s.log[i];
    assert s.log[..i + 1] == s.log[..i] + [e];
    assert InStage(s.log[..i], e) && Does(s.sc, f, s.states[i], e, s.states[i + 1]) && SoundRun(s.sc, s.log[..i], e);
    InputsDoneAt(s.sc, s.log, i + 1);
    if Decision(e) {
      DecisionStep(f, l, s.sc, s.log[..i], s.states[i], e, s.states[i + 1]);
    } else if e.End? && e.status == Success {
      StoreStep(f, l, s.sc, s.log[..i], s.states[i], e.task, s.states[i + 1]);
    } else {
      ScribbleStep(f, l, s.sc, s.log[..i], s.states[i], e, s.states[i + 1]);
    }
  }

  /** The output of `t` is what its command writes when it reads its dependencies as they are now. */
  ghost predicate UpToDate(f: Tool, sc: Script, files: map<Node, Content>, t: Task) {
    && sc.OneOutput(t) && t in sc.vars && sc.Out(t) in files && CanRead(files, sc.Deps(t))
    && files[sc.Out(t)] == f(sc.info[t].kind.code, sc.vars[t], Contents(files, sc.Deps(t)))
  }

  lemma UpToDateNow(f: Tool, l: Layout, sc: Script, log: seq<Event>, b: Build, t: Task)
    requires sc.Valid() && BuildInv(f, l, sc, log, b) && Good(log, t)
    requires forall q :: Feeds(sc, q, t) ==> Good(log, q)
    ensures UpToDate(f, sc, b.store.files, t)
  {
    assert OutputWell(sc, f, b, t);
    forall d | d in sc.Deps(t)
      ensures d in b.store.files && b.store.files[d] == Meaning(f, b.nodeCache[d])
    {
      ReadsWell(f, sc, log, b, t, d);
    }
    SignatureMeansOutput(f, sc, b, t);
  }

  // --- a history of builds

  /** Some stored signature vouches for the file `n`. */
  ghost predicate Vouched(s: Store, n: Node) {
    n in s.nodeSig && exists u: Uid :: u in s.sigs && OutputOf(u, n) && s.sigs[u] == s.nodeSig[n]
  }

  ghost predicate OutputOf(u: Uid, n: Node) {
    u.paths != [] && u.paths[|u.paths| - 1] == n
  }

  /** Between two builds: sources may be edited at will, a built file may have been deleted (it loses its
      `sig`), and one that no stored signature vouches for may hold anything. */
  ghost predicate Edited(built: set<Node>, s: Store, r: Store) {
    && r.sigs == s.sigs
    && forall n :: n in built && n in r.nodeSig ==>
         n in s.nodeSig && r.nodeSig[n] == s.nodeSig[n] && (Vouched(s, n) ==> SameFile(s.files, r.files, n))
  }

  ghost predicate SameFile(a: map<Node, Content>, b: map<Node, Content>, n: Node) {
    (n in a <==> n in b) && (n in a && n in b ==> a[n] == b[n])
  }

  /** `sc` produces `n` under the uid `u`. */
  ghost predicate Under(sc: Script, n: Node, u: Uid) {
    exists t :: sc.Makes(t, n) && sc.UidOf(t) == u
  }

  /** Some output has in `c` the uid it has in `a`, and another one in `b`. */
  ghost predicate Returns(a: Script, b: Script, c: Script) {
    exists n, u, v :: Under(a, n, u) && Under(b, n, v) && Under(c, n, u) && u != v
  }

  /** No output goes back to a uid it had before a change. */
  ghost predicate NoReturn(h: seq<Session>) {
    forall i, j, k :: 0 <= i < j < k < |h| ==> !Returns(h[i].sc, h[j].sc, h[k].sc)
  }

  /** Builds of a project, one after the other, from an empty build directory; the script may change. */
  ghost predicate Builds(f: Tool, h: seq<Session>) {
    && (forall i :: 0 <= i < |h| ==> h[i].Valid(f) && h[i].sc.built == h[0].sc.built)
    && (|h| > 0 ==> h[0].Before().sigs == map[])
    && (forall i :: 0 <= i < |h| - 1 ==> Edited(h[0].sc.built, h[i].After(), h[i + 1].Before()))
  }

  ghost predicate AllSound(h: seq<Session>) {
    forall i :: 0 <= i < |h| ==> SoundRuns(h[i].sc, h[i].log)
  }

  /** The builds that are not error-free have no command run on the output of a failed one. */
  ghost predicate Careful(h: seq<Session>) {
    forall i :: 0 <= i < |h| ==> h[i].ErrorFree() || SoundRuns(h[i].sc, h[i].log)
  }

  lemma CarefulIsSound(f: Tool, h: seq<Session>)
    requires Builds(f, h)
    ensures Careful(h) <==> AllSound(h)
  {
    hide SoundRuns, Session.Valid, Session.ErrorFree, Edited;
    forall i | 0 <= i < |h| && h[i].ErrorFree()
      ensures SoundRuns(h[i].sc, h[i].log)
    {
      ErrorFreeSound(f, h[i]);
    }
  }

  ghost predicate History(f: Tool, h: seq<Session>) {
    Builds(f, h) && Careful(h) && NoReturn(h)
  }

  lemma EditedCoherent(f: Tool, l: Layout, s: Store, r: Store)
    requires Coherent(f, l, s) && l.Valid() && Edited(l.built, s, r)
    ensures Coherent(f, l, r)
  {
    forall n | Trusted(l, r, n)
      ensures Faithful(f, r, n)
    {
      assert OutputOf(l.uidOf[n], n);
      assert Vouched(s, n) && Trusted(l, s, n);
      assert Faithful(f, s, n);
    }
  }

  // --- the uids in use

  lemma UidUnique(sc: Script, n: Node, u: Uid, v: Uid)
    requires sc.Valid() && Under(sc, n, u) && Under(sc, n, v)
    ensures u == v && OutputOf(u, n) && n in sc.built
  {
  }

  ghost predicate HasUid(sc: Script, n: Node) {
    exists u :: Under(sc, n, u)
  }

  ghost function UidIn(sc: Script, n: Node): Uid
    requires HasUid(sc, n)
  {
    var u :| Under(sc, n, u); u
  }

  ghost function Named(sc: Script): map<Node, Uid> {
    map n | n in sc.built && HasUid(sc, n) :: UidIn(sc, n)
  }

  /** Every output that has been produced by the build numbered `k`, under its latest uid. */
  ghost function LayoutAt(h: seq<Session>, k: nat): Layout
    requires k < |h|
  {
    Layout(h[0].sc.built, if k == 0 then Named(h[0].sc) else LayoutAt(h, k - 1).uidOf + Named(h[k].sc))
  }

  lemma NamedUnder(sc: Script, n: Node)
    requires sc.Valid()
    ensures n in Named(sc) ==> n in sc.built && Under(sc, n, Named(sc)[n]) && OutputOf(Named(sc)[n], n)
    ensures forall u :: Under(sc, n, u) ==> n in Named(sc) && Named(sc)[n] == u
  {
    forall u | Under(sc, n, u)
      ensures n in Named(sc) && Named(sc)[n] == u
    {
      UidUnique(sc, n, u, u);
      assert HasUid(sc, n);
      UidUnique(sc, n, u, UidIn(sc, n));
    }
    if n in Named(sc) {
      UidUnique(sc, n, Named(sc)[n], Named(sc)[n]);
    }
  }

  ghost predicate SameBuilt(h: seq<Session>) {
    forall i :: 0 <= i < |h| ==> h[i].sc.Valid() && h[i].sc.built == h[0].sc.built
  }

  lemma {:induction false} LayoutValid(h: seq<Session>, k: nat)
    requires SameBuilt(h) && k < |h|
    ensures LayoutAt(h, k).Valid()
    decreases k
  {
    hide Named, Script.Valid;
    var l := LayoutAt(h, k);
    if k > 0 {
      LayoutValid(h, k - 1);
    }
    forall n | n in l.uidOf
      ensures n in l.built && OutputOf(l.uidOf[n], n)
    {
      NamedUnder(h[k].sc, n);
    }
  }

  lemma LayoutFits(h: seq<Session>, k: nat)
    requires SameBuilt(h) && k < |h|
    ensures LayoutAt(h, k).Fits(h[k].sc)
  {
    hide Named, Script.Valid;
    var sc := h[k].sc;
    forall t | sc.OneOutput(t)
      ensures sc.Out(t) in LayoutAt(h, k).uidOf && LayoutAt(h, k).uidOf[sc.Out(t)] == sc.UidOf(t)
    {
      assert sc.Makes(t, sc.Out(t));
      assert Under(sc, sc.Out(t), sc.UidOf(t));
      NamedUnder(sc, sc.Out(t));
    }
  }

  /** The build that produced `n` last. */
  lemma {:induction false} LatestBuild(h: seq<Session>, k: nat, n: Node) returns (m: nat)
    requires SameBuilt(h) && k < |h| && n in LayoutAt(h, k).uidOf
    ensures m <= k && Under(h[m].sc, n, LayoutAt(h, k).uidOf[n])
    ensures forall j :: m < j <= k ==> !HasUid(h[j].sc, n)
    decreases k
  {
    hide Named, Script.Valid, Under;
    NamedUnder(h[k].sc, n);
    if n in Named(h[k].sc) {
      m := k;
    } else {
      m := LatestBuild(h, k - 1, n);
    }
  }

  lemma {:induction false} ProducedNamed(h: seq<Session>, j: nat, k: nat, n: Node)
    requires SameBuilt(h) && j <= k < |h| && HasUid(h[j].sc, n)
    ensures n in LayoutAt(h, k).uidOf
    decreases k
  {
    hide Named, Script.Valid, Under;
    if j == k {
      NamedUnder(h[k].sc, n);
    } else {
      ProducedNamed(h, j, k - 1, n);
    }
  }

  /** A uid that was in use, and is used again, has been the latest one of its output all along. */
  lemma UidStayed(h: seq<Session>, j: nat, k: nat, n: Node, u: Uid)
    requires SameBuilt(h) && NoReturn(h) && j <= k && k + 1 < |h|
    requires Under(h[j].sc, n, u) && Under(h[k + 1].sc, n, u)
    ensures n in LayoutAt(h, k).uidOf && LayoutAt(h, k).uidOf[n] == u
  {
    hide Script.Valid, Under, LayoutAt;
    ProducedNamed(h, j, k, n);
    var m := LatestBuild(h, k, n);
    if j == m {
      UidUnique(h[m].sc, n, u, LayoutAt(h, k).uidOf[n]);
    } else {
      assert !Returns(h[j].sc, h[m].sc, h[k + 1].sc);
    }
  }

  /** Only uids of scripts built so far have a signature stored. */
  ghost predicate UsedOnly(h: seq<Session>, k: nat, s: Store) {
    forall u :: u in s.sigs ==> InUse(h, k, u)
  }

  ghost predicate InUse(h: seq<Session>, k: nat, u: Uid) {
    exists j, n :: 0 <= j < k <= |h| && Under(h[j].sc, n, u)
  }

  lemma {:induction false} SessionUses(f: Tool, h: seq<Session>, k: nat, i: nat)
    requires k < |h| && h[k].Valid(f) && i <= |h[k].log| && UsedOnly(h, k, h[k].Before())
    ensures UsedOnly(h, k + 1, h[k].states[i].store)
    decreases i
  {
    hide Under, Script.Valid;
    if i == 0 {
      assert forall u :: InUse(h, k, u) ==> InUse(h, k + 1, u);
    } else {
      SessionUses(f, h, k, i - 1);
      var e, b, c := h[k].log[i - 1], h[k].states[i - 1], h[k].states[i];
      assert Does(h[k].sc, f, b, e, h[k].states[i - 1 + 1]);
      EventSigs(h[k].sc, f, b, e, c);
      assert Under(h[k].sc, h[k].sc.Out(e.task), h[k].sc.UidOf(e.task)) ==> InUse(h, k + 1, h[k].sc.UidOf(e.task));
    }
  }

  lemma EventSigs(sc: Script, f: Tool, b: Build, e: Event, c: Build)
    requires Does(sc, f, b, e, c)
    ensures sc.OneOutput(e.task) && Under(sc, sc.Out(e.task), sc.UidOf(e.task))
    ensures forall u :: u in c.store.sigs ==> u in b.store.sigs || u == sc.UidOf(e.task)
  {
    assert sc.Makes(e.task, sc.Out(e.task));
    if e.task in sc.vars {
      SignedKeeps(sc, b, e.task);
    }
  }

  /** With the next script, a stored signature is that of the current uid, or of none in use. */
  lemma NextLayoutCoherent(f: Tool, h: seq<Session>, k: nat, s: Store)
    requires SameBuilt(h) && NoReturn(h) && k + 1 < |h| && UsedOnly(h, k + 1, s) && Coherent(f, LayoutAt(h, k), s)
    ensures Coherent(f, LayoutAt(h, k + 1), s)
  {
    hide Script.Valid, Under, Faithful, Named, NoReturn;
    var l, r := LayoutAt(h, k), LayoutAt(h, k + 1);
    forall n | Trusted(r, s, n)
      ensures Faithful(f, s, n)
    {
      var u := r.uidOf[n];
      NamedUnder(h[k + 1].sc, n);
      if n in Named(h[k + 1].sc) {
        assert InUse(h, k + 1, u);
        var j, m :| 0 <= j < k + 1 && Under(h[j].sc, m, u);
        UidUnique(h[j].sc, m, u, u);
        UidStayed(h, j, k, n, u);
      }
      assert Trusted(l, s, n);
    }
  }

  lemma BuildsValid(f: Tool, h: seq<Session>)
    requires Builds(f, h)
    ensures SameBuilt(h)
    ensures forall i :: 0 <= i < |h| ==> h[i].Valid(f) && |h[i].states| == |h[i].log| + 1
  {
  }

  /** Before every build of a history, what is stored can be trusted. */
  lemma {:induction false} HistoryCoherent(f: Tool, h: seq<Session>, k: nat)
    requires History(f, h) && k < |h|
    ensures h[k].states != [] && Coherent(f, LayoutAt(h, k), h[k].Before()) && UsedOnly(h, k, h[k].Before())
    decreases k
  {
    hide Coherent, Session.Valid, Session.ErrorFree, SoundRuns, Edited, SameBuilt, NoReturn, LayoutAt;
    BuildsValid(f, h);
    CarefulIsSound(f, h);
    if k == 0 {
      NothingStored(f, LayoutAt(h, 0), h[0].Before());
    } else {
      HistoryCoherent(f, h, k - 1);
      var s, r := h[k - 1].After(), h[k].Before();
      LayoutValid(h, k - 1);
      LayoutFits(h, k - 1);
      SessionEnds(f, LayoutAt(h, k - 1), h[k - 1]);
      SessionUses(f, h, k - 1, |h[k - 1].log|);
      assert Edited(h[0].sc.built, s, h[k - 1 + 1].Before());
      LayoutBuilt(h, k - 1);
      EditedCoherent(f, LayoutAt(h, k - 1), s, r);
      EditedUses(h, k, s, r);
      NextLayoutCoherent(f, h, k - 1, r);
    }
  }

  lemma LayoutBuilt(h: seq<Session>, k: nat)
    requires k < |h|
    ensures LayoutAt(h, k).built == h[0].sc.built
  {
  }

  lemma EditedUses(h: seq<Session>, k: nat, s: Store, r: Store)
    requires UsedOnly(h, k, s) && 0 < |h| && Edited(h[0].sc.built, s, r)
    ensures UsedOnly(h, k, r)
  {
  }

  lemma HasStates(f: Tool, s: Session)
    requires s.Valid(f)
    ensures |s.states| == |s.log| + 1
  {
  }

  lemma NothingStored(f: Tool, l: Layout, s: Store)
    requires s.sigs == map[]
    ensures Coherent(f, l, s)
  {
  }

  lemma SessionEnds(f: Tool, l: Layout, s: Session)
    requires s.Valid(f) && l.Valid() && l.Fits(s.sc) && SoundRuns(s.sc, s.log) && Coherent(f, l, s.Before())
    ensures Coherent(f, l, s.After())
  {
    SessionKeepsInv(f, l, s, |s.log|);
  }

  /** After any history of successful, failed and stopped builds, and any edits of sources and script: in the
      last build every task that ended well, on inputs whose tasks ended well, has an up-to-date output,
      whether it was run or skipped. */
  lemma IncrementalIsUpToDate(f: Tool, h: seq<Session>, t: Task)
    requires History(f, h) && h != []
    requires var s := h[|h| - 1]; Good(s.log, t) && forall q :: Feeds(s.sc, q, t) ==> Good(s.log, q)
    ensures h[|h| - 1].states != [] && UpToDate(f, h[|h| - 1].sc, h[|h| - 1].After().files, t)
  {
    hide Coherent, BuildInv, Script.Valid, Layout.Valid, Layout.Fits, Session.ErrorFree, SoundRuns, UpToDate, Feeds,
         LayoutAt, NoReturn, Edited;
    var k := |h| - 1;
    var s, l := h[k], LayoutAt(h, k);
    BuildsValid(f, h);
    CarefulIsSound(f, h);
    HistoryCoherent(f, h, k);
    LayoutValid(h, k);
    LayoutFits(h, k);
    SessionKeepsInv(f, l, s, |s.log|);
    assert s.log[..|s.log|] == s.log;
    UpToDateNow(f, l, s.sc, s.log, s.states[|s.log|], t);
  }

  // --- from scratch

  ghost predicate SameSources(sc: Script, a: map<Node, Content>, b: map<Node, Content>) {
    forall n :: n !in sc.built ==> SameFile(a, b, n)
  }

  /** Two sets of files whose outputs are all up to date with the same sources are the same. */
  lemma {:induction false} UpToDateUnique(f: Tool, sc: Script, log: seq<Event>, a: map<Node, Content>,
                                          b: map<Node, Content>, t: Task, i: nat)
    requires sc.Valid() && Lifecycle(log) && InputsFirst(sc, log) && SameSources(sc, a, b)
    requires forall x :: x in sc.info ==> UpToDate(f, sc, a, x) && UpToDate(f, sc, b, x)
    requires t in sc.info && i <= |log| && StageOf(log[..i], t).Done?
    ensures SameFile(a, b, sc.Out(t))
    decreases i
  {
    hide Lifecycle, StageOf, Decision;
    var k := DecidedEarlier(log, t, i);
    assert UpToDate(f, sc, a, t) && UpToDate(f, sc, b, t);
    assert FeedersDone(sc, log[..k], t);
    forall d | d in sc.Deps(t)
      ensures a[d] == b[d]
    {
      if d in sc.built {
        var q :| sc.Makes(q, d);
        assert Feeds(sc, q, t);
        UpToDateUnique(f, sc, log, a, b, q, k);
      } else {
        assert SameFile(a, b, d);
      }
    }
    assert Contents(a, sc.Deps(t)) == Contents(b, sc.Deps(t));
  }

  ghost predicate EndsWith(h: seq<Session>, s: Session) {
    h != [] && h[|h| - 1] == s
  }

  lemma AllUpToDate(f: Tool, h: seq<Session>, s: Session)
    requires History(f, h) && EndsWith(h, s) && s.ErrorFree()
    ensures s.Valid(f) && |s.states| == |s.log| + 1
    ensures forall t :: t in s.sc.info ==> UpToDate(f, s.sc, s.After().files, t)
  {
    hide UpToDate, Session.After, SoundRuns, NoReturn, Edited;
    BuildsValid(f, h);
    assert s == h[|h| - 1];
    hide History, Builds, SameBuilt;
    forall t | t in s.sc.info
      ensures UpToDate(f, s.sc, s.After().files, t)
    {
      IncrementalIsUpToDate(f, h, t);
    }
  }

  lemma CleanHistory(f: Tool, clean: Session)
    requires Builds(f, [clean]) && clean.ErrorFree()
    ensures History(f, [clean])
  {
    hide Builds, SoundRuns, Session.ErrorFree, Returns;
    assert [clean][0] == clean;
  }

  /** Incremental equals clean: an error-free build at the end of any history leaves every output with the
      content that any error-free build of the same script from an empty build directory gives it. */
  lemma IncrementalEqualsClean(f: Tool, h: seq<Session>, s: Session, clean: Session, t: Task)
    requires History(f, h) && EndsWith(h, s) && s.ErrorFree()
    requires Builds(f, [clean]) && clean.ErrorFree() && clean.sc == s.sc && t in s.sc.info
    requires s.states != [] && clean.states != [] && SameSources(s.sc, s.After().files, clean.After().files)
    ensures s.sc.OneOutput(t) && s.sc.Out(t) in s.After().files && s.sc.Out(t) in clean.After().files
    ensures s.After().files[s.sc.Out(t)] == clean.After().files[s.sc.Out(t)]
  {
    hide History, Builds, SameSources, Script.Valid, Feeds;
    AllUpToDate(f, h, s);
    CleanHistory(f, clean);
    AllUpToDate(f, [clean], clean);
    assert Good(clean.log, t);
    GoodIsDone(clean.log, t);
    assert clean.log[..|clean.log|] == clean.log;
    assert UpToDate(f, s.sc, s.After().files, t) && UpToDate(f, clean.sc, clean.After().files, t);
    UpToDateUnique(f, s.sc, clean.log, s.After().files, clean.After().files, t, |clean.log|);
  }

  // --- the scheduler keeps its part

  /** Producers are in the same group as their consumers, or in an earlier one behind the group barrier. */
  ghost predicate ProducersInOrder(p: Plan, sc: Script) {
    forall q, t :: Feeds(sc, q, t) ==>
      Precedes(p, q, t) || (p.NoMore() && q in p.root && t in p.root && p.root[q] < p.root[t])
  }

  /** Every log the scheduler can produce is one the theorems above are about. */
  lemma SchedulerPutsInputsFirst(p: Plan, s: Sched, sc: Script)
    requires Inv(p, s) && ProducersInOrder(p, sc)
    ensures Lifecycle(s.log) && InputsFirst(sc, s.log)
  {
    hide Inv, Precedes, Plan.NoMore, Feeds;
    ItsLog(p, s);
    LogOrder(p, s.runAfter, s.log);
    forall i | 0 <= i < |s.log| && Decision(s.log[i])
      ensures FeedersDone(sc, s.log[..i], s.log[i].task)
    {
      var t := s.log[i].task;
      assert Follows(p, s.runAfter, s.log[..i], s.log[i]);
      assert s.log[..i + 1] == s.log[..i] + [s.log[i]];
      StageAfter(s.log[..i], s.log[i]);
      forall q | Feeds(sc, q, t)
        ensures StageOf(s.log[..i], q).Done?
      {
        StageNotIdle(s, t, i + 1);
        MustGoFirst(p, s, q, t);
      }
    }
  }

  lemma ItsLog(p: Plan, s: Sched)
    requires Inv(p, s)
    ensures OrderedLog(p, s.runAfter, s.log)
    ensures forall t :: !s.Gone(t) ==> StageOf(s.log, t) == Idle
  {
  }
}
