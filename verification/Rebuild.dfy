/** What a build does again, and what it leaves: a task is passed over as long as nothing it depends on has
    changed since it was last built, and never when something has. */
module Rebuild {
  import opened Basics
  import opened TaskOrder
  import opened Schedule
  import opened ScheduleProofs
  import opened Deadlock
  import opened Signatures
  import opened Incremental
  import opened Replay

  // --- the invariants of a build that need nothing of the store it starts from

  ghost function Prefix(s: Session, i: nat): Session
    requires i < |s.states| && i <= |s.log|
  {
    Session(s.sc, s.log[..i], s.states[..i + 1])
  }

  lemma PrefixValid(f: Tool, s: Session, i: nat)
    requires s.Valid(f) && i <= |s.log|
    ensures i < |s.states| && Prefix(s, i).Valid(f)
  {
    hide Script.Valid, Does, FeedersDone;
    var p := Prefix(s, i);
    LifecyclePrefix(s.log, i);
    forall k | 0 <= k < i
      ensures Does(p.sc, f, p.states[k], p.log[k], p.states[k + 1])
      ensures Decision(p.log[k]) ==> FeedersDone(p.sc, p.log[..k], p.log[k].task)
    {
      assert Does(s.sc, f, s.states[k], s.log[k], s.states[k + 1]);
      assert p.log[..k] == s.log[..k];
    }
  }

  lemma {:induction false} SessionCaches(f: Tool, s: Session, i: nat)
    requires s.Valid(f) && i <= |s.log|
    ensures |s.states| == |s.log| + 1
    ensures CachesWell(s.sc, s.log[..i], s.states[i]) && TasksSigned(s.sc, s.log[..i], s.states[i])
    decreases i
  {
    hide *;
    HasStates(f, s);
    if i > 0 {
      SessionCaches(f, s, i - 1);
      PrefixValid(f, s, i);
      EventAt(f, s, i - 1);
      EventKeeps(f, s.sc, s.log[..i - 1], s.states[i - 1], s.log[i - 1], s.states[i], Prefix(s, i));
    } else {
      NothingCached(f, s);
    }
  }

  lemma NothingCached(f: Tool, s: Session)
    requires s.Valid(f)
    ensures s.states != [] && CachesWell(s.sc, s.log[..0], s.states[0]) && TasksSigned(s.sc, s.log[..0], s.states[0])
  {
    assert s.log[..0] == [];
  }

  lemma EventAt(f: Tool, s: Session, i: nat)
    requires s.Valid(f) && i < |s.log|
    ensures |s.states| == |s.log| + 1 && s.log[..i + 1] == s.log[..i] + [s.log[i]]
    ensures InStage(s.log[..i], s.log[i]) && Does(s.sc, f, s.states[i], s.log[i], s.states[i + 1])
    ensures s.sc.Valid() && Prefix(s, i + 1).sc == s.sc && Prefix(s, i + 1).log == s.log[..i] + [s.log[i]]
  {
    hide Script.Valid, Does, InStage, InputsFirst;
  }

  /** Both signatures stored for `t` are the one it has been given. */
  ghost predicate Filed(sc: Script, b: Build, t: Task) {
    && t in b.sigOf && sc.OneOutput(t)
    && sc.UidOf(t) in b.store.sigs && b.store.sigs[sc.UidOf(t)] == b.sigOf[t]
    && sc.Out(t) in b.store.nodeSig && b.store.nodeSig[sc.Out(t)] == b.sigOf[t]
  }

  ghost predicate AllFiled(sc: Script, log: seq<Event>, b: Build) {
    forall t :: Good(log, t) ==> Filed(sc, b, t)
  }

  lemma DecisionFiles(f: Tool, sc: Script, log: seq<Event>, b: Build, e: Event, c: Build)
    requires sc.Valid() && TasksSigned(sc, log, b) && AllFiled(sc, log, b) && InStage(log, e) && Does(sc, f, b, e, c)
    requires Decision(e)
    ensures AllFiled(sc, log + [e], c)
  {
    var t := e.task;
    NotSigned(sc, log, b, e);
    DecisionSigns(sc, f, b, e, c);
    hide TasksSigned, InStage, Signature, Signed;
    SignedKeeps(sc, b, t);
    SignedOthers(sc, b, t);
    GoodAfter(log, e);
    forall x | Good(log + [e], x)
      ensures Filed(sc, c, x)
    {
      if x != t {
        assert Filed(sc, b, x);
        assert sc.Out(x) in sc.built;
      } else {
        assert sc.Out(t) in sc.built;
      }
    }
  }

  lemma OtherFiles(f: Tool, sc: Script, log: seq<Event>, b: Build, e: Event, c: Build)
    requires sc.Valid() && TasksSigned(sc, log, b) && AllFiled(sc, log, b) && InStage(log, e) && Does(sc, f, b, e, c)
    requires !Decision(e)
    ensures AllFiled(sc, log + [e], c)
  {
    var t := e.task;
    GoodAfter(log, e);
    forall x | Good(log + [e], x) && x != t
      ensures Filed(sc, c, x)
    {
      assert Filed(sc, b, x);
      UidsDiffer(sc, x, t);
      assert sc.Out(x) != sc.Out(t);
    }
  }

  lemma {:induction false} SessionFiles(f: Tool, s: Session, i: nat)
    requires s.Valid(f) && i <= |s.log|
    ensures |s.states| == |s.log| + 1 && AllFiled(s.sc, s.log[..i], s.states[i])
    decreases i
  {
    hide *;
    HasStates(f, s);
    if i > 0 {
      SessionFiles(f, s, i - 1);
      SessionCaches(f, s, i - 1);
      EventAt(f, s, i - 1);
      if Decision(s.log[i - 1]) {
        DecisionFiles(f, s.sc, s.log[..i - 1], s.states[i - 1], s.log[i - 1], s.states[i]);
      } else {
        OtherFiles(f, s.sc, s.log[..i - 1], s.states[i - 1], s.log[i - 1], s.states[i]);
      }
    } else {
      NoneFiled(s.sc, s.log[..0], s.states[0]);
    }
  }

  lemma NoneFiled(sc: Script, log: seq<Event>, b: Build)
    requires log == []
    ensures AllFiled(sc, log, b)
  {
  }

  lemma FiledIsCurrent(sc: Script, log: seq<Event>, b: Build, t: Task)
    requires CachesWell(sc, log, b) && TasksSigned(sc, log, b) && Filed(sc, b, t)
    ensures HasInputs(sc, b.store, t) && Current(sc, b.store, t)
  {
    assert SignedWell(sc, b, t);
    forall d | d in sc.Deps(t)
      ensures HasSig(sc, b.store, d) && b.nodeCache[d] == SigNow(sc, b.store, d)
    {
      assert CachedWell(sc, log, b, d);
    }
    assert TaskSig(sc, b.store, t) == b.sigOf[t];
  }

  /** When a build is over, what is stored for a task that ended well is the signature it would have now. */
  lemma GoodIsCurrent(f: Tool, s: Session, t: Task)
    requires s.Valid(f) && Good(s.log, t)
    ensures s.states != [] && s.sc.OneOutput(t) && HasInputs(s.sc, s.After(), t) && Current(s.sc, s.After(), t)
  {
    var n := |s.log|;
    assert s.log[..n] == s.log;
    hide Session.Valid, CachesWell, TasksSigned, HasInputs, Current;
    SessionCaches(f, s, n);
    SessionFiles(f, s, n);
    FiledIsCurrent(s.sc, s.log, s.states[n], t);
  }

  // --- what is passed over

  ghost predicate FedBy(sc: Script, t: Task, u: set<Task>)
    requires t in sc.info
  {
    forall d :: d in sc.Deps(t) && d in sc.built ==> exists q :: q in u && sc.Makes(q, d)
  }

  /** What is stored for the tasks in `u` is what they are about, and they are fed by one another alone. */
  ghost predicate Settled(sc: Script, s: Store, u: set<Task>) {
    forall t :: t in u ==> SettledAt(sc, s, u, t)
  }

  ghost predicate SettledAt(sc: Script, s: Store, u: set<Task>, t: Task) {
    sc.OneOutput(t) && HasInputs(sc, s, t) && Current(sc, s, t) && FedBy(sc, t, u)
  }

  /** Nothing stored has changed but for the task `x`, its output and its uid. */
  ghost predicate OnlyFor(sc: Script, a: Store, b: Store, x: Task)
    requires sc.OneOutput(x)
  {
    && (forall n :: n in sc.built && n != sc.Out(x) ==> SameSig(a, b, n))
    && (forall n :: n !in sc.built ==> SameFile(a.files, b.files, n))
    && (forall u :: u != sc.UidOf(x) ==> (u in a.sigs <==> u in b.sigs) && (u in a.sigs ==> a.sigs[u] == b.sigs[u]))
  }

  lemma SettledStays(sc: Script, a: Store, b: Store, u: set<Task>, x: Task)
    requires sc.Valid() && Settled(sc, a, u) && sc.OneOutput(x) && OnlyFor(sc, a, b, x) && x !in u
    ensures Settled(sc, b, u)
  {
    hide Script.Valid, OnlyFor, SettledAt;
    forall t | t in u
      ensures SettledAt(sc, b, u, t)
    {
      SettledTask(sc, a, b, u, x, t);
    }
  }

  lemma SettledTask(sc: Script, a: Store, b: Store, u: set<Task>, x: Task, t: Task)
    requires sc.Valid() && SettledAt(sc, a, u, t) && sc.OneOutput(x) && OnlyFor(sc, a, b, x) && x !in u && t in u
    ensures SettledAt(sc, b, u, t)
  {
    UidsDiffer(sc, x, t);
    assert sc.Out(t) in sc.built && sc.Out(x) != sc.Out(t);
    forall d | d in sc.Deps(t)
      ensures HasSig(sc, b, d) && SigNow(sc, b, d) == SigNow(sc, a, d)
    {
      assert HasSig(sc, a, d);
      if d in sc.built {
        var q :| q in u && sc.Makes(q, d);
        assert sc.Out(x) != d;
      }
    }
    hide Script.Valid, HasSig, SigNow;
    assert TaskSig(sc, b, t) == TaskSig(sc, a, t);
  }

  lemma SignedSettled(sc: Script, b: Build, u: set<Task>, x: Task)
    requires Settled(sc, b.store, u) && x in sc.info && x in sc.vars && forall t :: t in u ==> sc.OneOutput(t)
    requires forall t :: sc.OneOutput(t) ==> sc.Out(t) in sc.built
    ensures Settled(sc, Signed(sc, b, x).store, u)
  {
    var c := Signed(sc, b, x);
    SignedKeeps(sc, b, x);
    hide Signed;
    forall t | t in u
      ensures SettledAt(sc, c.store, u, t)
    {
      assert SettledAt(sc, b.store, u, t);
      forall d | d in sc.Deps(t)
        ensures HasSig(sc, c.store, d) && SigNow(sc, c.store, d) == SigNow(sc, b.store, d)
      {
        assert HasSig(sc, b.store, d);
      }
      assert TaskSig(sc, c.store, t) == TaskSig(sc, b.store, t);
    }
  }

  /** No task of `u` has been queued. */
  ghost predicate NoneQueued(log: seq<Event>, u: set<Task>) {
    forall t :: t in u ==> StageOf(log, t) != Queued && StageOf(log, t) != Started
  }

  lemma SettledEvent(f: Tool, sc: Script, log: seq<Event>, b: Build, e: Event, c: Build, u: set<Task>)
    requires sc.Valid() && CachesWell(sc, log, b) && TasksSigned(sc, log, b) && InStage(log, e) && Does(sc, f, b, e, c)
    requires Settled(sc, b.store, u) && NoneQueued(log, u)
    ensures Settled(sc, c.store, u) && NoneQueued(log + [e], u)
    ensures e.task in u ==> e.Skip?
  {
    StageAfter(log, e);
    hide CachesWell, TasksSigned, Settled, Does, Script.Valid;
    if Decision(e) {
      SettledDecision(f, sc, log, b, e, c, u);
    } else {
      OtherOnlyFor(f, sc, b, e, c);
      SettledStays(sc, b.store, c.store, u, e.task);
    }
  }

  lemma SettledDecision(f: Tool, sc: Script, log: seq<Event>, b: Build, e: Event, c: Build, u: set<Task>)
    requires sc.Valid() && CachesWell(sc, log, b) && TasksSigned(sc, log, b) && InStage(log, e) && Does(sc, f, b, e, c)
    requires Settled(sc, b.store, u) && Decision(e)
    ensures Settled(sc, c.store, u) && (e.task in u ==> e.Skip?)
  {
    var t := e.task;
    NotSigned(sc, log, b, e);
    DecisionSigns(sc, f, b, e, c);
    AllSettled(sc, b.store, u);
    hide CachesWell, TasksSigned, HasInputs, Current, TaskSig, InStage, Signed;
    SignedSettled(sc, b, u, t);
    if t in u {
      assert SettledAt(sc, b.store, u, t);
      DecideNow(sc, log, b, t);
    }
  }

  lemma AllSettled(sc: Script, s: Store, u: set<Task>)
    requires Settled(sc, s, u)
    ensures forall t :: t in u ==> sc.OneOutput(t)
  {
    forall t | t in u
      ensures sc.OneOutput(t)
    {
      assert SettledAt(sc, s, u, t);
    }
  }

  lemma OtherOnlyFor(f: Tool, sc: Script, b: Build, e: Event, c: Build)
    requires sc.Valid() && Does(sc, f, b, e, c) && !Decision(e)
    ensures sc.OneOutput(e.task) && OnlyFor(sc, b.store, c.store, e.task)
  {
    var t := e.task;
    assert sc.OneOutput(t) && sc.Out(t) in sc.built;
    hide Script.Valid;
    if e.Begin? {
      var g :| c == Launched(sc, b, t, g);
      PutElsewhere(b.store.files, sc.Out(t), g);
    } else if e.status != Success {
      var g :| c == Failed(sc, b, t, g);
      PutElsewhere(b.store.files, sc.Out(t), g);
    }
  }

  lemma PutElsewhere(files: map<Node, Content>, n: Node, g: Option<Content>)
    ensures forall m :: m != n ==> SameFile(files, PutFile(files, n, g), m)
  {
  }

  lemma {:induction false} SettledAlong(f: Tool, r: Session, u: set<Task>, i: nat)
    requires r.Valid(f) && r.states != [] && Settled(r.sc, r.Before(), u) && i <= |r.log|
    ensures i < |r.states| && Settled(r.sc, r.states[i].store, u) && NoneQueued(r.log[..i], u)
    ensures forall k :: 0 <= k < i && r.log[k].task in u ==> r.log[k].Skip?
    decreases i
  {
    hide *;
    HasStates(f, r);
    if i > 0 {
      SettledAlong(f, r, u, i - 1);
      SessionCaches(f, r, i - 1);
      EventAt(f, r, i - 1);
      SettledEvent(f, r.sc, r.log[..i - 1], r.states[i - 1], r.log[i - 1], r.states[i], u);
    } else {
      StoreBefore(r);
      NoneQueuedYet(r.log[..0], u);
    }
  }

  lemma StoreBefore(r: Session)
    requires r.states != []
    ensures r.Before() == r.states[0].store
  {
  }

  lemma NoneQueuedYet(log: seq<Event>, u: set<Task>)
    requires log == []
    ensures NoneQueued(log, u)
  {
  }

  /** Tasks about which what is stored is current, and that no others feed, are passed over: none is run. */
  lemma SettledIsSkipped(f: Tool, r: Session, u: set<Task>, i: nat)
    requires r.Valid(f) && r.states != [] && Settled(r.sc, r.Before(), u) && i < |r.log| && r.log[i].task in u
    ensures r.log[i].Skip?
  {
    SettledAlong(f, r, u, |r.log|);
  }

  // --- from one build to the next

  /** Since the build `s` nothing has changed about the tasks in `u`: they ended well there, are told the same in
      the script of `r`, their outputs are still known, the sources they read are as they were, and what else they
      read they make themselves. */
  ghost predicate Untouched(s: Session, r: Session, u: set<Task>)
    requires s.states != [] && r.states != []
  {
    && s.sc.built == r.sc.built && r.Before().sigs == s.After().sigs
    && forall t :: t in u ==> UntouchedAt(s, r, u, t)
  }

  ghost predicate UntouchedAt(s: Session, r: Session, u: set<Task>, t: Task)
    requires s.states != [] && r.states != []
  {
    && Good(s.log, t) && t in s.sc.info && t in r.sc.info && r.sc.info[t] == s.sc.info[t]
    && t in s.sc.vars && t in r.sc.vars && r.sc.vars[t] == s.sc.vars[t]
    && s.sc.OneOutput(t) && s.sc.Out(t) in s.sc.built && SameSig(s.After(), r.Before(), s.sc.Out(t))
    && forall d :: d in s.sc.Deps(t) ==>
         if d in s.sc.built then exists q :: q in u && s.sc.Makes(q, d)
         else SameFile(s.After().files, r.Before().files, d)
  }

  lemma UntouchedSettled(f: Tool, s: Session, r: Session, u: set<Task>)
    requires s.Valid(f) && s.states != [] && r.states != [] && Untouched(s, r, u)
    ensures Settled(r.sc, r.Before(), u)
  {
    hide Session.Valid;
    forall t | t in u
      ensures SettledAt(r.sc, r.Before(), u, t)
    {
      UntouchedTask(f, s, r, u, t);
    }
  }

  lemma UntouchedTask(f: Tool, s: Session, r: Session, u: set<Task>, t: Task)
    requires s.Valid(f) && s.states != [] && r.states != [] && Untouched(s, r, u) && t in u
    ensures SettledAt(r.sc, r.Before(), u, t)
  {
    assert UntouchedAt(s, r, u, t);
    hide Session.Valid, UntouchedAt, HasInputs, Current, HasSig, SigNow;
    GoodIsCurrent(f, s, t);
    ItsFiles(s, r, u, t);
    var a, b := s.After(), r.Before();
    InputsHave(s.sc, a, t);
    forall d | d in s.sc.Deps(t)
      ensures HasSig(r.sc, b, d) && SigNow(r.sc, b, d) == SigNow(s.sc, a, d)
      ensures d in r.sc.built ==> exists q :: q in u && r.sc.Makes(q, d)
    {
      InputSame(s, r, u, t, d);
    }
    SameCurrent(s.sc, a, r.sc, b, t);
  }

  lemma ItsFiles(s: Session, r: Session, u: set<Task>, t: Task)
    requires s.states != [] && r.states != [] && UntouchedAt(s, r, u, t)
    ensures t in s.sc.info && t in r.sc.info && r.sc.info[t] == s.sc.info[t] && r.sc.Deps(t) == s.sc.Deps(t)
    ensures t in s.sc.vars && t in r.sc.vars && r.sc.vars[t] == s.sc.vars[t] && s.sc.OneOutput(t)
    ensures SameSig(s.After(), r.Before(), s.sc.Out(t))
  {
  }

  lemma InputsHave(sc: Script, s: Store, t: Task)
    requires HasInputs(sc, s, t)
    ensures forall d :: d in sc.Deps(t) ==> HasSig(sc, s, d)
  {
  }

  lemma InputSame(s: Session, r: Session, u: set<Task>, t: Task, d: Node)
    requires s.states != [] && r.states != [] && Untouched(s, r, u) && t in u && t in s.sc.info
    requires d in s.sc.Deps(t) && HasSig(s.sc, s.After(), d)
    ensures HasSig(r.sc, r.Before(), d) && SigNow(r.sc, r.Before(), d) == SigNow(s.sc, s.After(), d)
    ensures d in r.sc.built ==> exists q :: q in u && r.sc.Makes(q, d)
  {
    assert UntouchedAt(s, r, u, t);
    if d in s.sc.built {
      var q :| q in u && s.sc.Makes(q, d);
      assert UntouchedAt(s, r, u, q);
      assert r.sc.Makes(q, d);
    }
  }

  lemma SameCurrent(x: Script, a: Store, y: Script, b: Store, t: Task)
    requires x.OneOutput(t) && HasInputs(x, a, t) && Current(x, a, t) && b.sigs == a.sigs && SameSig(a, b, x.Out(t))
    requires t in x.info && t in y.info && y.info[t] == x.info[t] && t in x.vars && t in y.vars
             && y.vars[t] == x.vars[t]
    requires forall d :: d in x.Deps(t) ==>
      HasSig(x, a, d) && HasSig(y, b, d) && SigNow(y, b, d) == SigNow(x, a, d)
    ensures y.OneOutput(t) && HasInputs(y, b, t) && Current(y, b, t)
  {
    hide SigNow, HasSig;
    assert TaskSig(y, b, t) == TaskSig(x, a, t);
  }

  /** A build runs none of the tasks that are untouched since the last build in which they ended well, whatever
      happens to the others. */
  lemma UntouchedIsSkipped(f: Tool, s: Session, r: Session, u: set<Task>, i: nat)
    requires s.Valid(f) && r.Valid(f) && s.states != [] && r.states != [] && Untouched(s, r, u)
    requires i < |r.log| && r.log[i].task in u
    ensures r.log[i].Skip?
  {
    hide Session.Valid, Untouched, Settled;
    UntouchedSettled(f, s, r, u);
    SettledIsSkipped(f, r, u, i);
  }

  /** A build right after an error-free one of the same script runs nothing at all. */
  lemma NothingRunsAgain(f: Tool, s: Session, r: Session, i: nat)
    requires s.Valid(f) && r.Valid(f) && s.ErrorFree() && s.states != [] && r.states != []
    requires r.sc == s.sc && r.Before() == s.After() && i < |r.log|
    ensures r.log[i].Skip?
  {
    var u := s.sc.info.Keys;
    ScriptFacts(f, s);
    assert r.log[i].task in u by {
      EventAt(f, r, i);
    }
    hide Session.Valid;
    forall t | t in u
      ensures UntouchedAt(s, r, u, t)
    {
      forall d | d in s.sc.Deps(t) && d in s.sc.built
        ensures exists q :: q in u && s.sc.Makes(q, d)
      {
        var q :| s.sc.Makes(q, d);
        assert q in u;
      }
    }
    UntouchedIsSkipped(f, s, r, u, i);
  }

  lemma ScriptFacts(f: Tool, s: Session)
    requires s.Valid(f)
    ensures s.sc.Valid()
  {
  }

  // --- what is not passed over

  /** What is stored under the uid of a task that has not been looked at is what was stored before. */
  lemma {:induction false} UidWaits(f: Tool, r: Session, t: Task, i: nat)
    requires r.Valid(f) && r.states != [] && r.sc.OneOutput(t) && i <= |r.log| && StageOf(r.log[..i], t) == Idle
    ensures i < |r.states| && SameUid(r.Before(), r.states[i].store, r.sc.UidOf(t))
    decreases i
  {
    if i > 0 {
      EventAt(f, r, i - 1);
      StageAfter(r.log[..i - 1], r.log[i - 1]);
      hide StageOf, Session.Valid;
      UidWaits(f, r, t, i - 1);
      EventUid(f, r.sc, r.states[i - 1], r.log[i - 1], r.states[i], t);
    }
  }

  ghost predicate SameUid(a: Store, b: Store, u: Uid) {
    (u in a.sigs <==> u in b.sigs) && (u in a.sigs && u in b.sigs ==> a.sigs[u] == b.sigs[u])
  }

  lemma EventUid(f: Tool, sc: Script, b: Build, e: Event, c: Build, t: Task)
    requires sc.Valid() && Does(sc, f, b, e, c) && sc.OneOutput(t) && e.task != t
    ensures SameUid(b.store, c.store, sc.UidOf(t))
  {
    UidsDiffer(sc, e.task, t);
    if Decision(e) {
      DecisionSigns(sc, f, b, e, c);
      SignedKeeps(sc, b, e.task);
    }
  }

  lemma {:induction false} SourceStays(f: Tool, r: Session, d: Node, i: nat)
    requires r.Valid(f) && r.states != [] && d !in r.sc.built && i <= |r.log|
    ensures i < |r.states| && SameFile(r.Before().files, r.states[i].store.files, d)
    decreases i
  {
    if i > 0 {
      EventAt(f, r, i - 1);
      hide Session.Valid;
      SourceStays(f, r, d, i - 1);
      EventSource(f, r.sc, r.states[i - 1], r.log[i - 1], r.states[i], d);
    }
  }

  lemma EventSource(f: Tool, sc: Script, b: Build, e: Event, c: Build, d: Node)
    requires sc.Valid() && Does(sc, f, b, e, c) && d !in sc.built
    ensures SameFile(b.store.files, c.store.files, d)
  {
    assert sc.Out(e.task) in sc.built;
    if Decision(e) {
      DecisionSigns(sc, f, b, e, c);
      SignedKeeps(sc, b, e.task);
    }
  }

  /** A skipped task has the signature that was stored under its uid before the build. */
  lemma SkippedHasOld(f: Tool, r: Session, i: nat)
    requires r.Valid(f) && r.states != [] && i < |r.log| && r.log[i].Skip?
    ensures
      var t := r.log[i].task;
      && |r.states| == |r.log| + 1 && r.sc.OneOutput(t) && HasInputs(r.sc, r.states[i].store, t)
      && r.sc.UidOf(t) in r.Before().sigs && r.Before().sigs[r.sc.UidOf(t)] == TaskSig(r.sc, r.states[i].store, t)
  {
    var e, t := r.log[i], r.log[i].task;
    EventAt(f, r, i);
    SessionCaches(f, r, i);
    var b := r.states[i];
    NotSigned(r.sc, r.log[..i], b, e);
    assert r.sc.OneOutput(t) && t in r.sc.vars && Decide(r.sc, b, t) == SkipMe;
    assert StageOf(r.log[..i], t) == Idle;
    hide Session.Valid, CachesWell, TasksSigned, Does, InStage, StageOf;
    UidWaits(f, r, t, i);
    SignedInputs(r.sc, r.log[..i], b, t);
    hide HasInputs, TaskSig, Signature, Current;
    DecideNow(r.sc, r.log[..i], b, t);
    CurrentIs(r.sc, b.store, t);
  }

  lemma CurrentIs(sc: Script, s: Store, t: Task)
    requires HasInputs(sc, s, t) && sc.OneOutput(t) && Current(sc, s, t)
    ensures sc.UidOf(t) in s.sigs && s.sigs[sc.UidOf(t)] == TaskSig(sc, s, t)
  {
  }

  lemma SignedInputs(sc: Script, log: seq<Event>, b: Build, t: Task)
    requires CachesWell(sc, log, b) && sc.OneOutput(t) && t in sc.vars && t !in b.sigOf && Signature(sc, b, t).Some?
    ensures HasInputs(sc, b.store, t)
  {
    var deps := sc.Deps(t);
    forall i | 0 <= i < |deps|
      ensures HasSig(sc, b.store, deps[i])
    {
      DepSigsCached(sc, b, deps, i);
      RememberedValues(sc, b, deps);
      var n := deps[i];
      if n in b.nodeCache {
        assert CachedWell(sc, log, b, n);
      }
    }
  }

  /** When a source that a task reads has changed since the task last ended well, or the code or the variables of
      the task have, the next build with the same uid does not pass it over. */
  lemma ChangeIsSeen(f: Tool, s: Session, r: Session, i: nat)
    requires s.Valid(f) && r.Valid(f) && s.states != [] && r.states != [] && r.Before().sigs == s.After().sigs
    requires s.sc.built == r.sc.built && i < |r.log|
    requires var t := r.log[i].task;
      && Good(s.log, t) && t in s.sc.info && t in r.sc.info && t in s.sc.vars && t in r.sc.vars
      && r.sc.UidOf(t) == s.sc.UidOf(t)
      && (|| r.sc.info[t].kind.code != s.sc.info[t].kind.code || r.sc.vars[t] != s.sc.vars[t]
          || exists d :: d in s.sc.Deps(t) && d in r.sc.Deps(t) && r.sc.Deps(t) == s.sc.Deps(t) && d !in s.sc.built
                         && !SameFile(s.After().files, r.Before().files, d))
    ensures !r.log[i].Skip?
  {
    var t := r.log[i].task;
    if r.log[i].Skip? {
      SkippedHasOld(f, r, i);
      GoodIsCurrent(f, s, t);
      hide Session.Valid;
      var a, b := s.After(), r.states[i].store;
      assert TaskSig(r.sc, b, t) == TaskSig(s.sc, a, t);
      if d :| d in s.sc.Deps(t) && r.sc.Deps(t) == s.sc.Deps(t) && d !in s.sc.built
              && !SameFile(s.After().files, r.Before().files, d) {
        SourceStays(f, r, d, i);
        SourceSame(s.sc, a, r.sc, b, t, d);
      }
    }
  }

  /** A signature tells the contents of the sources it was made from. */
  lemma SourceSame(x: Script, a: Store, y: Script, b: Store, t: Task, d: Node)
    requires HasInputs(x, a, t) && HasInputs(y, b, t) && TaskSig(x, a, t) == TaskSig(y, b, t)
    requires x.Deps(t) == y.Deps(t) && d in x.Deps(t) && d !in x.built && d !in y.built
    ensures SameFile(a.files, b.files, d)
  {
    var k :| 0 <= k < |x.Deps(t)| && x.Deps(t)[k] == d;
    assert TaskSig(x, a, t).deps[k] == TaskSig(y, b, t).deps[k];
    assert HasSig(x, a, d) && HasSig(y, b, d);
  }
}
