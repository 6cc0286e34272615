/** Builds that can be: what a build does to a task, one after the other, from any store. */
module Replay {
  import opened Basics
  import opened TaskOrder
  import opened Schedule
  import opened ScheduleProofs
  import opened Signatures
  import opened Incremental

  ghost function Now(s: Session): Build
    requires |s.states| > 0
  {
    s.states[|s.states| - 1]
  }

  /** Every built file that has a signature is there. */
  ghost predicate Stocked(built: set<Node>, s: Store) {
    forall n :: n in built && n in s.nodeSig ==> n in s.files
  }

  /** A session under way. */
  ghost predicate Underway(f: Tool, s: Session) {
    && s.Valid(f) && |s.states| == |s.log| + 1
    && CachesWell(s.sc, s.log, Now(s)) && TasksSigned(s.sc, s.log, Now(s))
  }

  /** A session between two tasks. */
  ghost predicate Going(f: Tool, s: Session) {
    Underway(f, s) && Stocked(s.sc.built, Now(s).store)
  }

  lemma Begins(f: Tool, sc: Script, b: Store) returns (s: Session)
    requires sc.Valid() && Stocked(sc.built, b)
    ensures s == Session(sc, [], [Build(b, map[], map[])]) && Going(f, s) && SoundRuns(sc, s.log)
    ensures forall t :: StageOf(s.log, t) == Idle && !Good(s.log, t)
  {
    s := Session(sc, [], [Build(b, map[], map[])]);
  }

  // --- one event

  ghost predicate StageKept(s: Session, r: Session, t: Task) {
    forall x :: x != t ==> StageOf(r.log, x) == StageOf(s.log, x) && Good(r.log, x) == Good(s.log, x)
  }

  lemma ExtendValid(f: Tool, s: Session, e: Event, c: Build) returns (r: Session)
    requires s.Valid(f) && InStage(s.log, e) && Does(s.sc, f, s.states[|s.log|], e, c)
    requires Decision(e) ==> FeedersDone(s.sc, s.log, e.task)
    ensures r == Session(s.sc, s.log + [e], s.states + [c]) && r.Valid(f)
    ensures SoundRuns(s.sc, s.log) && SoundRun(s.sc, s.log, e) ==> SoundRuns(r.sc, r.log)
  {
    hide Does, InStage, FeedersDone, SoundRun, Script.Valid;
    r := Session(s.sc, s.log + [e], s.states + [c]);
    forall i | 0 <= i < |r.log|
      ensures InStage(r.log[..i], r.log[i]) && Does(r.sc, f, r.states[i], r.log[i], r.states[i + 1])
      ensures Decision(r.log[i]) ==> FeedersDone(r.sc, r.log[..i], r.log[i].task)
      ensures SoundRuns(s.sc, s.log) && SoundRun(s.sc, s.log, e) ==> SoundRun(r.sc, r.log[..i], r.log[i])
    {
      if i < |s.log| {
        assert r.log[..i] == s.log[..i];
        assert InStage(s.log[..i], s.log[i]) && Does(s.sc, f, s.states[i], s.log[i], s.states[i + 1]);
      } else {
        assert r.log[..i] == s.log;
      }
    }
  }

  /** `r` is `s` and what happened to `t` then. */
  ghost predicate Goes(f: Tool, s: Session, r: Session, t: Task) {
    Underway(f, r) && r.sc == s.sc && s.states != [] && r.states[0] == s.states[0] && StageKept(s, r, t)
  }

  lemma Extend(f: Tool, s: Session, e: Event, c: Build) returns (r: Session)
    requires Underway(f, s) && InStage(s.log, e) && Does(s.sc, f, Now(s), e, c)
    requires Decision(e) ==> FeedersDone(s.sc, s.log, e.task)
    ensures Goes(f, s, r, e.task) && r.states != [] && Now(r) == c && r.log == s.log + [e]
    ensures SoundRuns(s.sc, s.log) && SoundRun(s.sc, s.log, e) ==> SoundRuns(r.sc, r.log)
    ensures StageOf(r.log, e.task) == match e case Queue(_) => Queued case Begin(_) => Started
      case End(_, st) => Done(st)
                                      case Skip(_) => Done(Skipped) case Broke(_, st) => Done(st)
    ensures Good(r.log, e.task) <==> e.Skip? || (e.End? && e.status == Success)
  {
    hide Session.Valid, CachesWell, TasksSigned, Does, InStage, SoundRuns, FeedersDone, SoundRun, Decision;
    r := ExtendValid(f, s, e, c);
    EventKeeps(f, s.sc, s.log, Now(s), e, c, r);
    EventStages(s, r, e);
  }

  lemma EventStages(s: Session, r: Session, e: Event)
    requires r.log == s.log + [e]
    ensures StageKept(s, r, e.task)
    ensures StageOf(r.log, e.task) == match e case Queue(_) => Queued case Begin(_) => Started
      case End(_, st) => Done(st)
                                      case Skip(_) => Done(Skipped) case Broke(_, st) => Done(st)
    ensures Good(r.log, e.task) <==> e.Skip? || (e.End? && e.status == Success)
  {
    StageAfter(s.log, e);
    GoodAfter(s.log, e);
  }

  lemma EventKeeps(f: Tool, sc: Script, log: seq<Event>, b: Build, e: Event, c: Build, r: Session)
    requires r.Valid(f) && r.sc == sc && r.log == log + [e]
    requires CachesWell(sc, log, b) && TasksSigned(sc, log, b) && InStage(log, e) && Does(sc, f, b, e, c)
    ensures CachesWell(sc, log + [e], c) && TasksSigned(sc, log + [e], c)
  {
    hide CachesWell, Does, InStage, InputsDone, Script.Valid;
    if Decision(e) {
      assert r.log[..|r.log|] == r.log;
      InputsDoneAt(sc, r.log, |r.log|);
      DecisionSigns(sc, f, b, e, c);
      NotSigned(sc, log, b, e);
      SignedCaches(f, Layout({}, map[]), sc, log, b, e);
      DecisionTasks(sc, f, log, b, e, c);
    } else if e.End? && e.status == Success {
      StoreCaches(f, sc, log, b, e.task, c);
      StoreTasks(f, sc, log, b, e.task, c);
    } else {
      ScribbleCaches(f, sc, log, b, e, c);
      ScribbleTasks(f, sc, log, b, e, c);
    }
  }

  lemma NotSigned(sc: Script, log: seq<Event>, b: Build, e: Event)
    requires TasksSigned(sc, log, b) && InStage(log, e) && Decision(e)
    ensures e.task !in b.sigOf
  {
  }

  // --- the signature of a task

  ghost predicate HasSig(sc: Script, s: Store, d: Node) {
    if d in sc.built then d in s.nodeSig else d in s.files
  }

  ghost predicate HasInputs(sc: Script, s: Store, t: Task) {
    t in sc.info && t in sc.vars && forall d :: d in sc.Deps(t) ==> HasSig(sc, s, d)
  }

  ghost function SigNow(sc: Script, s: Store, d: Node): Sig
    requires HasSig(sc, s, d)
  {
    if d in sc.built then s.nodeSig[d] else FileHash(s.files[d])
  }

  ghost function TaskSig(sc: Script, s: Store, t: Task): Sig
    requires HasInputs(sc, s, t)
  {
    var deps := sc.Deps(t);
    TaskHash(sc.info[t].kind.code, seq(|deps|, i requires 0 <= i < |deps| => SigNow(sc, s, deps[i])), sc.vars[t])
  }

  lemma PeekNow(sc: Script, log: seq<Event>, b: Build, d: Node)
    requires CachesWell(sc, log, b) && HasSig(sc, b.store, d)
    ensures Peek(sc, b, d) == Some(SigNow(sc, b.store, d))
  {
    if d in b.nodeCache {
      assert CachedWell(sc, log, b, d);
    }
  }

  lemma {:induction false} AllPeeked(sc: Script, b: Build, deps: seq<Node>, gs: seq<Sig>)
    requires |gs| == |deps| && forall i :: 0 <= i < |deps| ==> Peek(sc, b, deps[i]) == Some(gs[i])
    ensures DepSigs(sc, b, deps) == Some(gs)
    decreases |deps|
  {
    if deps != [] {
      var r := Remember(sc, b, deps[0]);
      forall i | 0 <= i < |deps[1..]|
        ensures Peek(sc, r, deps[1..][i]) == Some(gs[1..][i])
      {
        PeekStable(sc, b, deps[0], deps[i + 1]);
      }
      AllPeeked(sc, r, deps[1..], gs[1..]);
      assert [gs[0]] + gs[1..] == gs;
    }
  }

  lemma SignatureNow(sc: Script, log: seq<Event>, b: Build, t: Task)
    requires CachesWell(sc, log, b) && HasInputs(sc, b.store, t) && t !in b.sigOf
    ensures Signature(sc, b, t) == Some(TaskSig(sc, b.store, t))
    ensures t in Signed(sc, b, t).sigOf && Signed(sc, b, t).sigOf[t] == TaskSig(sc, b.store, t)
  {
    var deps := sc.Deps(t);
    forall i | 0 <= i < |deps|
      ensures Peek(sc, b, deps[i]) == Some(TaskSig(sc, b.store, t).deps[i])
    {
      PeekNow(sc, log, b, deps[i]);
    }
    AllPeeked(sc, b, deps, TaskSig(sc, b.store, t).deps);
  }

  ghost predicate Current(sc: Script, s: Store, t: Task)
    requires HasInputs(sc, s, t) && sc.OneOutput(t)
  {
    && sc.UidOf(t) in s.sigs && s.sigs[sc.UidOf(t)] == TaskSig(sc, s, t)
    && sc.Out(t) in s.nodeSig && s.nodeSig[sc.Out(t)] == TaskSig(sc, s, t)
  }

  lemma DecideNow(sc: Script, log: seq<Event>, b: Build, t: Task)
    requires CachesWell(sc, log, b) && HasInputs(sc, b.store, t) && t !in b.sigOf && sc.OneOutput(t)
    ensures Decide(sc, b, t) == if Current(sc, b.store, t) then SkipMe else RunMe
  {
    hide Signature, TaskSig, CachesWell, HasInputs;
    SignatureNow(sc, log, b, t);
  }

  // --- one task

  /** `t` can be looked at: it has not been yet, and all its inputs have signatures. */
  ghost predicate Due(f: Tool, s: Session, t: Task) {
    && Going(f, s) && StageOf(s.log, t) == Idle && FeedersDone(s.sc, s.log, t)
    && s.sc.OneOutput(t) && HasInputs(s.sc, Now(s).store, t)
  }

  lemma NextFree(f: Tool, s: Session, t: Task)
    requires Due(f, s, t)
    ensures t !in Now(s).sigOf && s.sc.Out(t) !in s.sc.Deps(t) && CanRead(Now(s).store.files, s.sc.Deps(t))
    ensures s.sc.Out(t) in s.sc.built
  {
    assert Feeds(s.sc, t, t) <==> s.sc.Out(t) in s.sc.Deps(t);
  }

  /** The built files have the signatures they had, but for `n`. */
  ghost predicate SigsKept(built: set<Node>, a: Store, b: Store, n: Node) {
    forall m :: m in built && m != n ==> SameSig(a, b, m)
  }

  ghost predicate SameSig(a: Store, b: Store, m: Node) {
    (m in a.nodeSig <==> m in b.nodeSig) && (m in a.nodeSig && m in b.nodeSig ==> a.nodeSig[m] == b.nodeSig[m])
  }

  ghost predicate Later(f: Tool, s: Session, r: Session, t: Task) {
    Goes(f, s, r, t) && Going(f, r) && StageOf(r.log, t).Done?
  }

  lemma GoesOn(f: Tool, s: Session, r: Session, t: Task)
    requires Goes(f, s, r, t)
    ensures Underway(f, r) && r.sc == s.sc && r.states != []
  {
  }

  lemma SkipStep(f: Tool, s: Session, t: Task) returns (r: Session)
    requires Due(f, s, t) && Current(s.sc, Now(s).store, t)
    ensures Later(f, s, r, t) && Good(r.log, t) && r.log == s.log + [Skip(t)]
    ensures SoundRuns(s.sc, s.log) ==> SoundRuns(r.sc, r.log)
    ensures Now(r).store.sigs == Now(s).store.sigs && Now(r).store.files == Now(s).store.files
    ensures SigsKept(s.sc.built, Now(s).store, Now(r).store, s.sc.Out(t))
            && SameSig(Now(s).store, Now(r).store, s.sc.Out(t))
  {
    var sc, b := s.sc, Now(s);
    SkipDoes(f, s, t);
    hide *;
    r := Extend(f, s, Skip(t), Signed(sc, b, t));
    GoesOn(f, s, r, t);
    NowLater(f, s, r, t);
  }

  lemma NowLater(f: Tool, s: Session, r: Session, t: Task)
    requires Goes(f, s, r, t) && r.states != [] && Stocked(r.sc.built, Now(r).store) && StageOf(r.log, t).Done?
    ensures Later(f, s, r, t)
  {
  }

  lemma ItGoes(f: Tool, s: Session, t: Task)
    requires Due(f, s, t)
    ensures Underway(f, s) && s.states != [] && Stocked(s.sc.built, Now(s).store)
    ensures CachesWell(s.sc, s.log, Now(s)) && TasksSigned(s.sc, s.log, Now(s))
    ensures s.sc.OneOutput(t) && t in s.sc.vars && HasInputs(s.sc, Now(s).store, t) && StageOf(s.log, t) == Idle
    ensures FeedersDone(s.sc, s.log, t) && s.sc.Out(t) in s.sc.built && t in s.sc.info
  {
  }

  /** Signing leaves the store alone, but for signatures of sources. */
  lemma SignedStore(sc: Script, b: Build, t: Task)
    requires sc.OneOutput(t) && t in sc.vars && Stocked(sc.built, b.store)
    ensures var c := Signed(sc, b, t);
      && c.store.sigs == b.store.sigs && c.store.files == b.store.files && Stocked(sc.built, c.store)
      && SigsKept(sc.built, b.store, c.store, sc.Out(t))
           && (sc.Out(t) in sc.built ==> SameSig(b.store, c.store, sc.Out(t)))
  {
    SignedKeeps(sc, b, t);
  }

  lemma SkipDoes(f: Tool, s: Session, t: Task)
    requires Due(f, s, t) && Current(s.sc, Now(s).store, t)
    ensures var sc, b := s.sc, Now(s);
      && Underway(f, s) && FeedersDone(sc, s.log, t)
      && InStage(s.log, Skip(t)) && SoundRun(sc, s.log, Skip(t))
      && sc.OneOutput(t) && t in sc.info && t in sc.vars && Does(sc, f, b, Skip(t), Signed(sc, b, t))
      && var c := Signed(sc, b, t);
      && c.store.sigs == b.store.sigs && c.store.files == b.store.files && Stocked(sc.built, c.store)
      && SigsKept(sc.built, b.store, c.store, sc.Out(t)) && SameSig(b.store, c.store, sc.Out(t))
  {
    hide Going, TaskSig, CachesWell, TasksSigned, Session.Valid, Script.Valid, FeedersDone, HasInputs, Signed, Current;
    ItGoes(f, s, t);
    NextFree(f, s, t);
    DecideNow(s.sc, s.log, Now(s), t);
    SignedStore(s.sc, Now(s), t);
  }

  lemma QueueDoes(f: Tool, s: Session, t: Task)
    requires Due(f, s, t) && !Current(s.sc, Now(s).store, t)
    ensures var sc, b := s.sc, Now(s);
      && Underway(f, s) && FeedersDone(sc, s.log, t)
      && InStage(s.log, Queue(t)) && SoundRun(sc, s.log, Queue(t))
      && sc.OneOutput(t) && t in sc.info && t in sc.vars && Does(sc, f, b, Queue(t), Signed(sc, b, t))
      && var c := Signed(sc, b, t);
      && t in c.sigOf && HasInputs(sc, b.store, t) && c.sigOf[t] == TaskSig(sc, b.store, t)
      && c.store.sigs == b.store.sigs && c.store.files == b.store.files
      && SigsKept(sc.built, b.store, c.store, sc.Out(t)) && SameSig(b.store, c.store, sc.Out(t))
  {
    hide Going, TaskSig, CachesWell, TasksSigned, Session.Valid, Script.Valid, FeedersDone, HasInputs, Signed, Current;
    ItGoes(f, s, t);
    NextFree(f, s, t);
    DecideNow(s.sc, s.log, Now(s), t);
    SignatureNow(s.sc, s.log, Now(s), t);
    SignedStore(s.sc, Now(s), t);
  }

  lemma BeginDoes(f: Tool, sc: Script, log: seq<Event>, c: Build, t: Task)
    requires sc.OneOutput(t) && t in sc.vars && StageOf(log, t) == Queued
    ensures InStage(log, Begin(t)) && !Decision(Begin(t)) && SoundRun(sc, log, Begin(t))
    ensures Does(sc, f, c, Begin(t), Launched(sc, c, t, None))
    ensures Launched(sc, c, t, None)
      == c.(store := c.store.(sigs := c.store.sigs - {sc.UidOf(t)}, files := c.store.files - {sc.Out(t)}))
  {
  }

  lemma SigsAlso(built: set<Node>, a: Store, b: Store, c: Store, n: Node)
    requires SigsKept(built, a, b, n) && SameSig(a, b, n) && c.nodeSig == b.nodeSig
    ensures SigsKept(built, a, c, n) && SameSig(a, c, n)
  {
  }

  /** `t` is queued and has begun; its output is for now gone. */
  ghost predicate Launching(f: Tool, s: Session, r: Session, t: Task) {
    && Goes(f, s, r, t) && StageOf(r.log, t) == Started && r.log == s.log + [Queue(t), Begin(t)]
    && (SoundRuns(s.sc, s.log) ==> SoundRuns(r.sc, r.log))
    && s.sc.OneOutput(t) && HasInputs(s.sc, Now(s).store, t)
    && t in Now(r).sigOf && Now(r).sigOf[t] == TaskSig(s.sc, Now(s).store, t)
    && Now(r).store.sigs == Now(s).store.sigs - {s.sc.UidOf(t)}
    && Now(r).store.files == Now(s).store.files - {s.sc.Out(t)}
    && SigsKept(s.sc.built, Now(s).store, Now(r).store, s.sc.Out(t)) && SameSig(Now(s).store, Now(r).store, s.sc.Out(t))
  }

  lemma StartStep(f: Tool, s: Session, t: Task) returns (r: Session)
    requires Due(f, s, t) && !Current(s.sc, Now(s).store, t)
    ensures Launching(f, s, r, t)
  {
    var sc, b := s.sc, Now(s);
    QueueDoes(f, s, t);
    hide *;
    var c := Signed(sc, b, t);
    var q := Extend(f, s, Queue(t), c);
    GoesOn(f, s, q, t);
    BeginDoes(f, sc, q.log, c, t);
    r := Extend(f, q, Begin(t), Launched(sc, c, t, None));
    SigsAlso(sc.built, b.store, c.store, Now(r).store, sc.Out(t));
    IsLaunching(f, s, q, r, t, c);
  }

  lemma IsLaunching(f: Tool, s: Session, q: Session, r: Session, t: Task, c: Build)
    requires Goes(f, s, q, t) && Goes(f, q, r, t) && StageOf(r.log, t) == Started
    requires q.log == s.log + [Queue(t)] && r.log == q.log + [Begin(t)]
    requires SoundRuns(s.sc, s.log) ==> SoundRuns(r.sc, r.log)
    requires s.sc.OneOutput(t) && HasInputs(s.sc, Now(s).store, t) && r.states != []
    requires t in c.sigOf && c.sigOf[t] == TaskSig(s.sc, Now(s).store, t)
    requires c.store.sigs == Now(s).store.sigs && c.store.files == Now(s).store.files
    requires Now(r)
      == c.(store := c.store.(sigs := c.store.sigs - {s.sc.UidOf(t)}, files := c.store.files - {s.sc.Out(t)}))
    requires SigsKept(s.sc.built, Now(s).store, Now(r).store, s.sc.Out(t))
             && SameSig(Now(s).store, Now(r).store, s.sc.Out(t))
    ensures Launching(f, s, r, t)
  {
    hide Underway, SigsKept, SameSig, TaskSig, HasInputs, SoundRuns, Script.OneOutput, Script.UidOf;
  }

  /** What `t` writes when it is run. */
  ghost function Written(f: Tool, sc: Script, files: map<Node, Content>, t: Task): Content
    requires t in sc.info && t in sc.vars && CanRead(files, sc.Deps(t))
  {
    f(sc.info[t].kind.code, sc.vars[t], Contents(files, sc.Deps(t)))
  }

  /** `t` has been run, from `s` to `r`, and ended well. */
  ghost predicate Ran(f: Tool, s: Session, r: Session, t: Task)
    requires Due(f, s, t)
  {
    && Later(f, s, r, t) && Good(r.log, t) && r.log == s.log + [Queue(t), Begin(t), End(t, Success)]
    && (SoundRuns(s.sc, s.log) && InputsGood(s.sc, s.log, t) ==> SoundRuns(r.sc, r.log))
    && CanRead(Now(s).store.files, s.sc.Deps(t))
    && Now(r).store.sigs == Now(s).store.sigs[s.sc.UidOf(t) := TaskSig(s.sc, Now(s).store, t)]
    && Now(r).store.files == Now(s).store.files[s.sc.Out(t) := Written(f, s.sc, Now(s).store.files, t)]
    && SigsKept(s.sc.built, Now(s).store, Now(r).store, s.sc.Out(t))
    && s.sc.Out(t) in Now(r).store.nodeSig && Now(r).store.nodeSig[s.sc.Out(t)] == TaskSig(s.sc, Now(s).store, t)
  }

  lemma RunStep(f: Tool, s: Session, t: Task) returns (r: Session)
    requires Due(f, s, t) && !Current(s.sc, Now(s).store, t)
    ensures Ran(f, s, r, t)
  {
    var sc, b := s.sc, Now(s);
    ItGoes(f, s, t);
    NextFree(f, s, t);
    hide *;
    var q := StartStep(f, s, t);
    HasLaunched(f, s, q, t);
    ReadsSame(b.store.files, sc.Out(t), sc.Deps(t));
    EndDoes(f, sc, q.log, b, Now(q), t);
    var c := Stored(sc, f, Now(q), t);
    SigsMoved(sc.built, b.store, Now(q).store, c.store, sc.Out(t), TaskSig(sc, b.store, t));
    StockedStays(sc.built, b.store, c.store, sc.Out(t));
    r := Extend(f, q, End(t, Success), c);
    GoesOn(f, q, r, t);
    NowEnded(f, s, q, r, t, End(t, Success));
    NowRan(f, s, q, r, t);
  }

  lemma NowRan(f: Tool, s: Session, q: Session, r: Session, t: Task)
    requires Due(f, s, t) && Launching(f, s, q, t) && Later(f, s, r, t) && Good(r.log, t)
    requires r.log == s.log + [Queue(t), Begin(t), End(t, Success)]
    requires SoundRuns(q.sc, q.log) && SoundRun(q.sc, q.log, End(t, Success)) ==> SoundRuns(r.sc, r.log)
    requires t in s.sc.info && t in s.sc.vars && CanRead(Now(s).store.files, s.sc.Deps(t))
    requires s.sc.OneOutput(t) && HasInputs(s.sc, Now(s).store, t) && r.states != []
    requires Now(r).store.sigs == Now(s).store.sigs[s.sc.UidOf(t) := TaskSig(s.sc, Now(s).store, t)]
    requires Now(r).store.files == Now(s).store.files[s.sc.Out(t) := Written(f, s.sc, Now(s).store.files, t)]
    requires SigsKept(s.sc.built, Now(s).store, Now(r).store, s.sc.Out(t))
    requires s.sc.Out(t) in Now(r).store.nodeSig && Now(r).store.nodeSig[s.sc.Out(t)] == TaskSig(s.sc, Now(s).store, t)
    ensures Ran(f, s, r, t)
  {
    ItGoes(f, s, t);
    hide Underway, Going, SigsKept, SameSig, TaskSig, HasInputs, SoundRuns, Stocked, Written, CanRead, Script.UidOf,
         Script.Out, Script.Deps;
    SoundIfGood(s.sc, s, q, t);
    hide SoundRun, InputsGood;
  }

  lemma HasLaunched(f: Tool, s: Session, q: Session, t: Task)
    requires Launching(f, s, q, t)
    ensures Goes(f, s, q, t) && Underway(f, q) && q.sc == s.sc && q.states != [] && s.states != []
            && StageOf(q.log, t) == Started
    ensures SoundRuns(s.sc, s.log) ==> SoundRuns(q.sc, q.log)
    ensures s.sc.OneOutput(t) && HasInputs(s.sc, Now(s).store, t) && StageKept(s, q, t)
    ensures t in Now(q).sigOf && Now(q).sigOf[t] == TaskSig(s.sc, Now(s).store, t)
    ensures Now(q).store.sigs == Now(s).store.sigs - {s.sc.UidOf(t)}
    ensures Now(q).store.files == Now(s).store.files - {s.sc.Out(t)}
    ensures SigsKept(s.sc.built, Now(s).store, Now(q).store, s.sc.Out(t))
            && SameSig(Now(s).store, Now(q).store, s.sc.Out(t))
  {
    hide Underway, SigsKept, SameSig, TaskSig, HasInputs, SoundRuns, StageKept;
    GoesOn(f, s, q, t);
  }

  lemma NowEnded(f: Tool, s: Session, q: Session, r: Session, t: Task, e: Event)
    requires Launching(f, s, q, t) && Goes(f, q, r, t) && r.states != [] && r.log == q.log + [e]
             && StageOf(r.log, t).Done?
    requires Stocked(r.sc.built, Now(r).store)
    ensures Later(f, s, r, t) && r.sc == s.sc && r.log == s.log + [Queue(t), Begin(t), e]
  {
    hide Underway, SigsKept, SameSig, TaskSig, HasInputs, SoundRuns, Stocked;
  }

  lemma SigsMoved(built: set<Node>, a: Store, b: Store, c: Store, n: Node, g: Sig)
    requires SigsKept(built, a, b, n) && c.nodeSig == b.nodeSig[n := g]
    ensures SigsKept(built, a, c, n)
  {
  }

  lemma StockedStays(built: set<Node>, a: Store, b: Store, n: Node)
    requires Stocked(built, a) && SigsKept(built, a, b, n) && n in b.files
    requires forall m :: m in a.files ==> m in b.files
    ensures Stocked(built, b)
  {
  }

  lemma SoundIfGood(sc: Script, s: Session, q: Session, t: Task)
    requires StageKept(s, q, t) && FeedersDone(sc, s.log, t) && StageOf(s.log, t) == Idle
    ensures InputsGood(sc, s.log, t) ==> SoundRun(sc, q.log, End(t, Success))
  {
  }

  lemma ReadsSame(files: map<Node, Content>, n: Node, deps: seq<Node>)
    requires CanRead(files, deps) && n !in deps
    ensures CanRead(files - {n}, deps) && Contents(files - {n}, deps) == Contents(files, deps)
  {
  }

  lemma EndDoes(f: Tool, sc: Script, log: seq<Event>, b: Build, c: Build, t: Task)
    requires sc.OneOutput(t) && t in sc.vars && t in c.sigOf && CanRead(b.store.files, sc.Deps(t))
             && CanRead(c.store.files, sc.Deps(t))
    requires c.store.sigs == b.store.sigs - {sc.UidOf(t)} && c.store.files == b.store.files - {sc.Out(t)}
    requires Contents(c.store.files, sc.Deps(t)) == Contents(b.store.files, sc.Deps(t)) && StageOf(log, t) == Started
    ensures t in sc.info && InStage(log, End(t, Success)) && !Decision(End(t, Success))
    ensures var d := Stored(sc, f, c, t);
      && Does(sc, f, c, End(t, Success), d)
      && d.store.sigs == b.store.sigs[sc.UidOf(t) := c.sigOf[t]]
      && d.store.files == b.store.files[sc.Out(t) := Written(f, sc, b.store.files, t)]
      && d.store.nodeSig == c.store.nodeSig[sc.Out(t) := c.sigOf[t]]
      && sc.Out(t) in d.store.files && forall m :: m in b.store.files ==> m in d.store.files
  {
    hide Contents, Script.UidOf, Script.Out, Script.Deps;
    var u, n, g, x := sc.UidOf(t), sc.Out(t), c.sigOf[t], Written(f, sc, b.store.files, t);
    assert (b.store.sigs - {u})[u := g] == b.store.sigs[u := g];
    assert (b.store.files - {n})[n := x] == b.store.files[n := x];
  }

  lemma FailDoes(f: Tool, sc: Script, log: seq<Event>, b: Build, c: Build, t: Task, g: Content)
    requires sc.OneOutput(t) && t in sc.vars && StageOf(log, t) == Started
             && c.store.files == b.store.files - {sc.Out(t)}
    ensures InStage(log, End(t, Crashed)) && !Decision(End(t, Crashed)) && SoundRun(sc, log, End(t, Crashed))
    ensures var d := Failed(sc, c, t, Some(g));
      && Does(sc, f, c, End(t, Crashed), d)
      && d.store == Store(c.store.sigs, c.store.nodeSig, b.store.files[sc.Out(t) := g])
      && sc.Out(t) in d.store.files && forall m :: m in b.store.files ==> m in d.store.files
  {
    assert (b.store.files - {sc.Out(t)})[sc.Out(t) := g] == b.store.files[sc.Out(t) := g];
  }

  /** `t` is run and fails, leaving `g` in its output. */
  lemma FailStep(f: Tool, s: Session, t: Task, g: Content) returns (r: Session)
    requires Due(f, s, t) && !Current(s.sc, Now(s).store, t)
    ensures Later(f, s, r, t) && !Good(r.log, t) && r.log == s.log + [Queue(t), Begin(t), End(t, Crashed)]
    ensures SoundRuns(s.sc, s.log) ==> SoundRuns(r.sc, r.log)
    ensures Now(r).store.sigs == Now(s).store.sigs - {s.sc.UidOf(t)}
    ensures Now(r).store.files == Now(s).store.files[s.sc.Out(t) := g]
    ensures SigsKept(s.sc.built, Now(s).store, Now(r).store, s.sc.Out(t))
            && SameSig(Now(s).store, Now(r).store, s.sc.Out(t))
  {
    var sc, b := s.sc, Now(s);
    ItGoes(f, s, t);
    hide *;
    var q := StartStep(f, s, t);
    HasLaunched(f, s, q, t);
    FailDoes(f, sc, q.log, b, Now(q), t, g);
    var c := Failed(sc, Now(q), t, Some(g));
    SigsAlso(sc.built, b.store, Now(q).store, c.store, sc.Out(t));
    StockedStays(sc.built, b.store, c.store, sc.Out(t));
    r := Extend(f, q, End(t, Crashed), c);
    NowEnded(f, s, q, r, t, End(t, Crashed));
  }

  // --- one task, whatever is decided about it

  ghost predicate SameKey<K, V>(a: map<K, V>, b: map<K, V>, k: K) {
    (k in a <==> k in b) && (k in a && k in b ==> a[k] == b[k])
  }

  /** `t` has been brought up to date, from `s` to `r`. */
  ghost predicate Built(f: Tool, s: Session, r: Session, t: Task)
    requires Due(f, s, t) && r.states != []
  {
    var sc, a, b := s.sc, Now(s).store, Now(r).store;
    && Later(f, s, r, t) && Good(r.log, t)
    && (SoundRuns(sc, s.log) && InputsGood(sc, s.log, t) ==> SoundRuns(sc, r.log))
    && (forall u :: u != sc.UidOf(t) ==> SameKey(a.sigs, b.sigs, u))
    && sc.UidOf(t) in b.sigs && b.sigs[sc.UidOf(t)] == TaskSig(sc, a, t)
    && SigsKept(sc.built, a, b, sc.Out(t))
    && sc.Out(t) in b.nodeSig && b.nodeSig[sc.Out(t)] == TaskSig(sc, a, t)
    && (forall n :: n != sc.Out(t) ==> SameFile(a.files, b.files, n))
    && if Current(sc, a, t) then b.files == a.files
       else CanRead(a.files, sc.Deps(t)) && sc.Out(t) in b.files && b.files[sc.Out(t)] == Written(f, sc, a.files, t)
  }

  lemma BuildStep(f: Tool, s: Session, t: Task) returns (r: Session)
    requires Due(f, s, t)
    ensures r.states != [] && Built(f, s, r, t)
  {
    hide Going, Underway, Later, TaskSig, HasInputs, SoundRuns, InputsGood, SigsKept, CanRead, Written, Goes,
         FeedersDone, Current, Ran, SameSig;
    ItGoes(f, s, t);
    if Current(s.sc, Now(s).store, t) {
      r := SkipStep(f, s, t);
      LaterStates(f, s, r, t);
      SkippedBuilt(f, s, r, t);
    } else {
      r := RunStep(f, s, t);
      RanBuilt(f, s, r, t);
    }
  }

  lemma SkippedBuilt(f: Tool, s: Session, r: Session, t: Task)
    requires Due(f, s, t) && Current(s.sc, Now(s).store, t) && Later(f, s, r, t) && Good(r.log, t) && r.states != []
    requires SoundRuns(s.sc, s.log) ==> SoundRuns(s.sc, r.log)
    requires Now(r).store.sigs == Now(s).store.sigs && Now(r).store.files == Now(s).store.files
    requires SigsKept(s.sc.built, Now(s).store, Now(r).store, s.sc.Out(t))
             && SameSig(Now(s).store, Now(r).store, s.sc.Out(t))
    ensures Built(f, s, r, t)
  {
    hide Going, Later, TaskSig, HasInputs, SoundRuns, InputsGood, Written, CanRead, SigsKept;
  }

  lemma RanBuilt(f: Tool, s: Session, r: Session, t: Task)
    requires Due(f, s, t) && !Current(s.sc, Now(s).store, t) && Ran(f, s, r, t)
    ensures r.states != [] && Built(f, s, r, t)
  {
    hide Going, Later, TaskSig, HasInputs, SoundRuns, InputsGood, Written, CanRead, SigsKept, Current, Script.UidOf,
         Script.Out;
    LaterStates(f, s, r, t);
  }

  lemma LaterStates(f: Tool, s: Session, r: Session, t: Task)
    requires Later(f, s, r, t)
    ensures r.states != [] && r.sc == s.sc
  {
  }

  /** Every built file with a signature, but for those in `bad`, holds what the signature stands for. */
  ghost predicate Trusty(f: Tool, built: set<Node>, s: Store, bad: set<Node>) {
    forall n :: n in built && n !in bad && n in s.nodeSig ==> Faithful(f, s, n)
  }

  ghost predicate Clean(sc: Script, t: Task, bad: set<Node>) {
    sc.OneOutput(t) && sc.Out(t) !in bad && forall d :: d in sc.Deps(t) ==> d !in bad
  }

  lemma WrittenMeans(f: Tool, sc: Script, s: Store, t: Task, bad: set<Node>)
    requires Trusty(f, sc.built, s, bad) && HasInputs(sc, s, t) && CanRead(s.files, sc.Deps(t))
    requires forall d :: d in sc.Deps(t) ==> d !in bad
    ensures Written(f, sc, s.files, t) == Meaning(f, TaskSig(sc, s, t))
  {
    var deps, ds := sc.Deps(t), TaskSig(sc, s, t).deps;
    forall i | 0 <= i < |deps|
      ensures s.files[deps[i]] == Meaning(f, ds[i])
    {
      assert HasSig(sc, s, deps[i]);
    }
    assert Contents(s.files, deps) == seq(|ds|, i requires 0 <= i < |ds| => Meaning(f, ds[i]));
  }

  lemma BuiltTrusty(f: Tool, s: Session, r: Session, t: Task, bad: set<Node>)
    requires Due(f, s, t) && r.states != [] && Built(f, s, r, t) && Clean(s.sc, t, bad)
             && Trusty(f, s.sc.built, Now(s).store, bad)
    ensures Trusty(f, s.sc.built, Now(r).store, bad)
  {
    hide Going, Later, TaskSig, SoundRuns, InputsGood, Written, CanRead, SigsKept, SameKey;
    NextFree(f, s, t);
    ItGoes(f, s, t);
    var sc, a, b := s.sc, Now(s).store, Now(r).store;
    WrittenMeans(f, sc, a, t, bad);
    forall n | n in sc.built && n !in bad && n in b.nodeSig
      ensures Faithful(f, b, n)
    {
      if n != sc.Out(t) {
        BuiltElsewhere(f, s, r, t, n);
        assert Faithful(f, a, n);
      }
    }
  }

  lemma BuiltElsewhere(f: Tool, s: Session, r: Session, t: Task, n: Node)
    requires Due(f, s, t) && r.states != [] && Built(f, s, r, t) && n != s.sc.Out(t)
    ensures (n in s.sc.built ==> SameSig(Now(s).store, Now(r).store, n))
    ensures SameFile(Now(s).store.files, Now(r).store.files, n)
  {
    hide Going, Later, TaskSig, HasInputs, SoundRuns, InputsGood, Written, CanRead, Current;
  }

  // --- tasks in order

  ghost predicate FedBy(sc: Script, order: seq<Task>, i: nat)
    requires i < |order|
  {
    forall q :: Feeds(sc, q, order[i]) ==> q in order[..i]
  }

  /** `order` lists the tasks of the script, each after those that feed it. */
  ghost predicate Buildable(sc: Script, order: seq<Task>) {
    && sc.Valid() && NoDup(order) && (forall t :: t in order <==> t in sc.info)
    && forall i :: 0 <= i < |order| ==> FedBy(sc, order, i)
  }

  /** All sources are there. */
  ghost predicate Sourced(sc: Script, files: map<Node, Content>) {
    forall t :: t in sc.info ==> HasSources(sc, files, t)
  }

  ghost predicate HasSources(sc: Script, files: map<Node, Content>, t: Task)
    requires t in sc.info
  {
    forall d :: d in sc.Deps(t) && d !in sc.built ==> d in files
  }

  /** The signatures of the first `k` outputs, from the sources alone. */
  ghost function Specs(sc: Script, order: seq<Task>, files: map<Node, Content>, k: nat): map<Node, Sig>
    requires k <= |order|
    decreases k
  {
    if k == 0 then map[]
    else
      var m, t := Specs(sc, order, files, k - 1), order[k - 1];
      if sc.OneOutput(t) && HasInputs(sc, Store(map[], m, files), t)
      then m[sc.Out(t) := TaskSig(sc, Store(map[], m, files), t)] else m
  }

  ghost function SpecStore(sc: Script, order: seq<Task>, files: map<Node, Content>, k: nat): Store
    requires k <= |order|
  {
    Store(map[], Specs(sc, order, files, k), files)
  }

  /** The outputs of the first `k` tasks are the ones that have a signature. */
  lemma {:induction false} SpecsKnown(sc: Script, order: seq<Task>, files: map<Node, Content>, k: nat)
    requires Buildable(sc, order) && Sourced(sc, files) && k <= |order|
    ensures forall t :: t in order[..k] ==> sc.OneOutput(t) && sc.Out(t) in Specs(sc, order, files, k)
    decreases k
  {
    hide Buildable, Sourced, HasInputs, TaskSig;
    if k > 0 {
      SpecsKnown(sc, order, files, k - 1);
      SpecInputs(sc, order, files, k - 1);
      assert order[..k] == order[..k - 1] + [order[k - 1]];
    }
  }

  lemma SpecInputs(sc: Script, order: seq<Task>, files: map<Node, Content>, k: nat)
    requires Buildable(sc, order) && Sourced(sc, files) && k < |order|
    requires forall t :: t in order[..k] ==> sc.OneOutput(t) && sc.Out(t) in Specs(sc, order, files, k)
    ensures sc.OneOutput(order[k]) && HasInputs(sc, SpecStore(sc, order, files, k), order[k])
  {
    hide Specs;
    var t := order[k];
    assert t in order && HasSources(sc, files, t) && FedBy(sc, order, k);
    forall d | d in sc.Deps(t)
      ensures HasSig(sc, SpecStore(sc, order, files, k), d)
    {
      if d in sc.built {
        var q :| sc.Makes(q, d);
        assert Feeds(sc, q, t);
      }
    }
  }

  /** Where a session stands that has brought the first `k` tasks up to date. */
  ghost predicate Upto(f: Tool, sc: Script, order: seq<Task>, files: map<Node, Content>, k: nat, s: Session)
    requires k <= |order|
  {
    && Going(f, s) && s.sc == sc && s.states != []
    && (forall t :: t in order[..k] ==> Good(s.log, t)) && (forall t :: t in order[k..] ==> StageOf(s.log, t) == Idle)
    && SameSources(sc, files, Now(s).store.files)
    && forall n :: n in Specs(sc, order, files, k) ==> HasSpec(sc, order, files, k, Now(s).store, n)
  }

  ghost predicate HasSpec(sc: Script, order: seq<Task>, files: map<Node, Content>, k: nat, s: Store, n: Node)
    requires k <= |order| && n in Specs(sc, order, files, k)
  {
    n in s.nodeSig && s.nodeSig[n] == Specs(sc, order, files, k)[n]
  }

  lemma UptoNext(f: Tool, sc: Script, order: seq<Task>, files: map<Node, Content>, k: nat, s: Session)
    requires Buildable(sc, order) && Sourced(sc, files) && k < |order| && Upto(f, sc, order, files, k, s)
    ensures Due(f, s, order[k]) && InputsGood(sc, s.log, order[k])
    ensures HasInputs(sc, SpecStore(sc, order, files, k), order[k])
    ensures TaskSig(sc, Now(s).store, order[k]) == TaskSig(sc, SpecStore(sc, order, files, k), order[k])
  {
    hide Specs, Going, SameSources;
    var t := order[k];
    SpecsKnown(sc, order, files, k);
    SpecInputs(sc, order, files, k);
    assert order[k..][0] == t && FedBy(sc, order, k) && t in order;
    forall q | Feeds(sc, q, t)
      ensures Good(s.log, q) && StageOf(s.log, q).Done?
    {
      GoodIsDone(s.log, q);
    }
    forall d | d in sc.Deps(t)
      ensures HasSig(sc, Now(s).store, d)
              && SigNow(sc, Now(s).store, d) == SigNow(sc, SpecStore(sc, order, files, k), d)
    {
      DepSpec(sc, order, files, k, Now(s).store, t, d);
    }
  }

  lemma DepSpec(sc: Script, order: seq<Task>, files: map<Node, Content>, k: nat, s: Store, t: Task, d: Node)
    requires k <= |order| && HasInputs(sc, SpecStore(sc, order, files, k), t) && d in sc.Deps(t)
             && SameSources(sc, files, s.files)
    requires forall n :: n in Specs(sc, order, files, k) ==> HasSpec(sc, order, files, k, s, n)
    ensures HasSig(sc, s, d) && SigNow(sc, s, d) == SigNow(sc, SpecStore(sc, order, files, k), d)
  {
    hide Specs;
    assert HasSig(sc, SpecStore(sc, order, files, k), d);
    if d !in sc.built {
      assert SameFile(files, s.files, d);
    }
  }

  lemma SpecsGrow(sc: Script, order: seq<Task>, files: map<Node, Content>, k: nat)
    requires Buildable(sc, order) && Sourced(sc, files) && k < |order|
    ensures sc.OneOutput(order[k]) && HasInputs(sc, SpecStore(sc, order, files, k), order[k])
    ensures Specs(sc, order, files, k + 1)
         == Specs(sc, order, files, k)[sc.Out(order[k]) := TaskSig(sc, SpecStore(sc, order, files, k), order[k])]
  {
    SpecsKnown(sc, order, files, k);
    hide Buildable, Sourced, HasInputs, TaskSig;
    SpecInputs(sc, order, files, k);
  }

  lemma NextSources(f: Tool, s: Session, r: Session, t: Task, files: map<Node, Content>)
    requires Due(f, s, t) && r.states != [] && Built(f, s, r, t) && SameSources(s.sc, files, Now(s).store.files)
    ensures SameSources(s.sc, files, Now(r).store.files)
  {
    hide Built, Due;
    ItGoes(f, s, t);
    forall n | n !in s.sc.built
      ensures SameFile(files, Now(r).store.files, n)
    {
      BuiltElsewhere(f, s, r, t, n);
      assert SameFile(files, Now(s).store.files, n);
    }
  }

  lemma NextSpecs(f: Tool, sc: Script, order: seq<Task>, files: map<Node, Content>, k: nat, s: Session, r: Session,
                  n: Node)
    requires Buildable(sc, order) && Sourced(sc, files) && k < |order| && Upto(f, sc, order, files, k, s)
    requires Due(f, s, order[k]) && r.states != [] && Built(f, s, r, order[k])
    requires n in Specs(sc, order, files, k + 1)
    ensures HasSpec(sc, order, files, k + 1, Now(r).store, n)
  {
    UptoNext(f, sc, order, files, k, s);
    SpecsGrow(sc, order, files, k);
    hide Specs, TaskSig, HasInputs, Going, Later, SoundRuns, InputsGood, Buildable, Sourced, Due, SpecStore, Current,
         SigsKept, SameSources;
    if n != sc.Out(order[k]) {
      assert n in Specs(sc, order, files, k) && HasSpec(sc, order, files, k, Now(s).store, n);
      SpecsBuilt(sc, order, files, k, n);
      BuiltElsewhere(f, s, r, order[k], n);
    }
  }

  lemma {:induction false} SpecsBuilt(sc: Script, order: seq<Task>, files: map<Node, Content>, k: nat, n: Node)
    requires Buildable(sc, order) && k <= |order| && n in Specs(sc, order, files, k)
    ensures n in sc.built
    decreases k
  {
    hide HasInputs, TaskSig;
    assert k > 0 ==> order[k - 1] in order;
    if k > 0 && n in Specs(sc, order, files, k - 1) {
      SpecsBuilt(sc, order, files, k - 1, n);
    }
  }

  /** The next task in order is brought up to date. */
  lemma Advance(f: Tool, sc: Script, order: seq<Task>, files: map<Node, Content>, k: nat, s: Session)
    returns (r: Session)
    requires Buildable(sc, order) && Sourced(sc, files) && k < |order| && Upto(f, sc, order, files, k, s)
    ensures Due(f, s, order[k]) && r.states != [] && Built(f, s, r, order[k]) && Upto(f, sc, order, files, k + 1, r)
    ensures SoundRuns(sc, s.log) ==> SoundRuns(sc, r.log)
  {
    UptoNext(f, sc, order, files, k, s);
    hide Specs, Sourced, Buildable, Upto, Due, SoundRuns, InputsGood, TaskSig, HasInputs;
    r := BuildStep(f, s, order[k]);
    UptoKept(f, sc, order, files, k, s, r);
    BuiltSound(f, s, r, order[k]);
  }

  lemma BuiltSound(f: Tool, s: Session, r: Session, t: Task)
    requires Due(f, s, t) && r.states != [] && Built(f, s, r, t)
    ensures SoundRuns(s.sc, s.log) && InputsGood(s.sc, s.log, t) ==> SoundRuns(s.sc, r.log)
    ensures Goes(f, s, r, t) && Going(f, r) && Good(r.log, t) && StageKept(s, r, t) && r.sc == s.sc
  {
    hide SoundRuns, InputsGood, TaskSig, HasInputs, Current, SigsKept, Going, Underway;
  }

  lemma UptoKept(f: Tool, sc: Script, order: seq<Task>, files: map<Node, Content>, k: nat, s: Session, r: Session)
    requires Buildable(sc, order) && Sourced(sc, files) && k < |order| && Upto(f, sc, order, files, k, s)
    requires Due(f, s, order[k]) && r.states != [] && Built(f, s, r, order[k])
    ensures Upto(f, sc, order, files, k + 1, r)
  {
    hide Specs, HasSpec, Sourced, Due, SameSources, Built, Going;
    NextSources(f, s, r, order[k], files);
    var m := Specs(sc, order, files, k + 1);
    forall n | n in m
      ensures HasSpec(sc, order, files, k + 1, Now(r).store, n)
    {
      NextSpecs(f, sc, order, files, k, s, r, n);
    }
    BuiltSound(f, s, r, order[k]);
    NextStages(order, k, s, r);
  }

  lemma NextStages(order: seq<Task>, k: nat, s: Session, r: Session)
    requires NoDup(order) && k < |order| && StageKept(s, r, order[k]) && Good(r.log, order[k])
    requires (forall t :: t in order[..k] ==> Good(s.log, t))
             && (forall t :: t in order[k..] ==> StageOf(s.log, t) == Idle)
    ensures (forall t :: t in order[..k + 1] ==> Good(r.log, t))
            && (forall t :: t in order[k + 1..] ==> StageOf(r.log, t) == Idle)
  {
    assert order[..k + 1] == order[..k] + [order[k]] && order[k..] == [order[k]] + order[k + 1..];
    forall t | t in order[k + 1..]
      ensures t != order[k] && t in order[k..]
    {
      var i :| k + 1 <= i < |order| && order[i] == t;
    }
  }

  // --- what a stretch of a build leaves alone

  ghost predicate Untouched(a: Store, b: Store, n: Node) {
    SameFile(a.files, b.files, n) && SameSig(a, b, n) && forall u :: OutputOf(u, n) ==> SameKey(a.sigs, b.sigs, u)
  }

  ghost predicate MadeBy(sc: Script, ts: seq<Task>, n: Node) {
    exists t :: t in ts && sc.Makes(t, n)
  }

  lemma BuiltUntouched(f: Tool, s: Session, r: Session, t: Task, n: Node)
    requires Due(f, s, t) && r.states != [] && Built(f, s, r, t) && n in s.sc.built && n != s.sc.Out(t)
    ensures Untouched(Now(s).store, Now(r).store, n)
  {
    hide Going, Later, TaskSig, HasInputs, SoundRuns, InputsGood, Written, CanRead, Current, SigsKept, SameSig,
         SameFile;
    BuiltElsewhere(f, s, r, t, n);
    ItGoes(f, s, t);
    hide Due;
    forall u | OutputOf(u, n)
      ensures SameKey(Now(s).store.sigs, Now(r).store.sigs, u)
    {
      assert OutputOf(s.sc.UidOf(t), s.sc.Out(t));
    }
  }

  lemma UntouchedTwice(a: Store, b: Store, c: Store, n: Node)
    requires Untouched(a, b, n) && Untouched(b, c, n)
    ensures Untouched(a, c, n)
  {
    forall u | OutputOf(u, n)
      ensures SameKey(a.sigs, c.sigs, u)
    {
      assert SameKey(a.sigs, b.sigs, u) && SameKey(b.sigs, c.sigs, u);
    }
  }

  ghost predicate LeavesAlone(sc: Script, ts: seq<Task>, a: Store, b: Store) {
    forall n :: n in sc.built && !MadeBy(sc, ts, n) ==> Untouched(a, b, n)
  }

  ghost predicate AllClean(sc: Script, ts: seq<Task>, bad: set<Node>) {
    forall t :: t in ts ==> Clean(sc, t, bad)
  }

  ghost predicate KeepsTrusty(f: Tool, sc: Script, ts: seq<Task>, a: Store, b: Store) {
    forall bad :: Trusty(f, sc.built, a, bad) && AllClean(sc, ts, bad) ==> Trusty(f, sc.built, b, bad)
  }

  ghost predicate Stores(sc: Script, order: seq<Task>, files: map<Node, Content>, k: nat, s: Store, t: Task)
    requires k <= |order|
  {
    && sc.OneOutput(t) && sc.UidOf(t) in s.sigs && sc.Out(t) in Specs(sc, order, files, k)
    && s.sigs[sc.UidOf(t)] == Specs(sc, order, files, k)[sc.Out(t)]
  }

  ghost predicate AllStored(sc: Script, order: seq<Task>, files: map<Node, Content>, k: nat, s: Store, ts: seq<Task>)
    requires k <= |order|
  {
    forall t :: t in ts ==> Stores(sc, order, files, k, s, t)
  }

  /** Of the tasks from `i` up to `k`: what they leave alone, what they store, and what they keep trusty. */
  ghost predicate Stretch(f: Tool, sc: Script, order: seq<Task>, files: map<Node, Content>, i: nat, k: nat, a: Store,
                          b: Store)
    requires i <= k <= |order|
  {
    && LeavesAlone(sc, order[i..k], a, b) && AllStored(sc, order, files, k, b, order[i..k])
    && KeepsTrusty(f, sc, order[i..k], a, b)
  }

  lemma StretchNext(f: Tool, sc: Script, order: seq<Task>, files: map<Node, Content>, i: nat, k: nat, a: Store,
                    s: Session, r: Session)
    requires Buildable(sc, order) && Sourced(sc, files) && i <= k < |order| && Upto(f, sc, order, files, k, s)
    requires Due(f, s, order[k]) && r.states != [] && Built(f, s, r, order[k])
    requires Stretch(f, sc, order, files, i, k, a, Now(s).store)
    ensures Stretch(f, sc, order, files, i, k + 1, a, Now(r).store)
  {
    hide Built, Due, Upto, Specs, Sourced, Buildable, Script.Makes, LeavesAlone, AllStored, KeepsTrusty;
    var t, ts := order[k], order[i..k];
    assert order[i..k + 1] == ts + [t];
    TaskFacts(f, sc, order, files, k, s);
    AloneNext(f, ts, s, r, t, a);
    AllStoredNext(f, sc, order, files, k, s, r, ts);
    TrustyNext(f, ts, s, r, t, a);
  }

  lemma AloneNext(f: Tool, ts: seq<Task>, s: Session, r: Session, t: Task, a: Store)
    requires Due(f, s, t) && r.states != [] && s.states != [] && Built(f, s, r, t)
             && LeavesAlone(s.sc, ts, a, Now(s).store)
    ensures LeavesAlone(s.sc, ts + [t], a, Now(r).store)
  {
    hide Built, Due, Untouched, MadeBy;
    var all := ts + [t];
    forall n | n in s.sc.built && !MadeBy(s.sc, all, n)
      ensures Untouched(a, Now(r).store, n)
    {
      StretchUntouched(f, s.sc, ts, s, r, t, a, n);
    }
  }

  lemma AllStoredNext(f: Tool, sc: Script, order: seq<Task>, files: map<Node, Content>, k: nat, s: Session, r: Session,
                      ts: seq<Task>)
    requires Buildable(sc, order) && Sourced(sc, files) && k < |order| && Upto(f, sc, order, files, k, s)
    requires Due(f, s, order[k]) && r.states != [] && s.states != [] && Built(f, s, r, order[k])
    requires (forall t :: t in ts ==> t in order[..k]) && AllStored(sc, order, files, k, Now(s).store, ts)
    ensures AllStored(sc, order, files, k + 1, Now(r).store, ts + [order[k]])
  {
    hide Built, Due, Upto, Specs, Sourced, Buildable, Stores;
    var all := ts + [order[k]];
    forall x | x in all
      ensures Stores(sc, order, files, k + 1, Now(r).store, x)
    {
      StoresNext(f, sc, order, files, k, s, r, x);
    }
  }

  lemma TrustyNext(f: Tool, ts: seq<Task>, s: Session, r: Session, t: Task, a: Store)
    requires Due(f, s, t) && r.states != [] && s.states != [] && Built(f, s, r, t)
             && KeepsTrusty(f, s.sc, ts, a, Now(s).store)
    ensures KeepsTrusty(f, s.sc, ts + [t], a, Now(r).store)
  {
    hide Built, Due, Trusty, Clean;
    var all := ts + [t];
    forall bad | Trusty(f, s.sc.built, a, bad) && AllClean(s.sc, all, bad)
      ensures Trusty(f, s.sc.built, Now(r).store, bad)
    {
      assert AllClean(s.sc, ts, bad);
      assert t in all;
      BuiltTrusty(f, s, r, t, bad);
    }
  }

  lemma StretchUntouched(f: Tool, sc: Script, ts: seq<Task>, s: Session, r: Session, t: Task, a: Store, n: Node)
    requires Due(f, s, t) && r.states != [] && Built(f, s, r, t) && s.sc == sc && s.states != []
    requires n in sc.built && !MadeBy(sc, ts + [t], n)
    requires !MadeBy(sc, ts, n) ==> Untouched(a, Now(s).store, n)
    ensures Untouched(a, Now(r).store, n)
  {
    hide Built, Untouched;
    ItGoes(f, s, t);
    hide Due;
    assert t in ts + [t] && forall x :: x in ts ==> x in ts + [t];
    assert n != sc.Out(t) by {
      assert !sc.Makes(t, n);
    }
    assert !MadeBy(sc, ts, n);
    BuiltUntouched(f, s, r, t, n);
    UntouchedTwice(a, Now(s).store, Now(r).store, n);
  }

  lemma TaskFacts(f: Tool, sc: Script, order: seq<Task>, files: map<Node, Content>, k: nat, s: Session)
    requires Buildable(sc, order) && k < |order| && Upto(f, sc, order, files, k, s)
    ensures s.sc == sc && s.states != [] && sc.Valid() && forall x :: x in order ==> x in sc.info && sc.OneOutput(x)
    ensures order[k] in sc.info && sc.OneOutput(order[k])
  {
    assert order[k] in order;
  }

  lemma StoresNext(f: Tool, sc: Script, order: seq<Task>, files: map<Node, Content>, k: nat, s: Session, r: Session,
                   x: Task)
    requires Buildable(sc, order) && Sourced(sc, files) && k < |order| && Upto(f, sc, order, files, k, s)
    requires Due(f, s, order[k]) && r.states != [] && Built(f, s, r, order[k])
    requires x == order[k] || (x in order[..k] && Stores(sc, order, files, k, Now(s).store, x))
    ensures Stores(sc, order, files, k + 1, Now(r).store, x)
  {
    hide Specs, TaskSig, HasInputs, Sourced, Due, Built, SpecStore, Buildable, Script.Valid, Stores;
    var t := order[k];
    UptoNext(f, sc, order, files, k, s);
    TaskFacts(f, sc, order, files, k, s);
    ItGoes(f, s, t);
    SpecsGrow(sc, order, files, k);
    BuiltStores(f, s, r, t, sc.UidOf(x));
    if x == t {
      StoredFresh(sc, order, files, k, Now(r).store, t, TaskSig(sc, Now(s).store, t));
    } else {
      StoredStill(sc, order, files, k, Now(s).store, Now(r).store, t, TaskSig(sc, Now(s).store, t), x);
    }
  }

  lemma BuiltStores(f: Tool, s: Session, r: Session, t: Task, u: Uid)
    requires Due(f, s, t) && r.states != [] && Built(f, s, r, t)
    ensures u != s.sc.UidOf(t) ==> SameKey(Now(s).store.sigs, Now(r).store.sigs, u)
    ensures s.sc.UidOf(t) in Now(r).store.sigs && Now(r).store.sigs[s.sc.UidOf(t)] == TaskSig(s.sc, Now(s).store, t)
  {
    hide SoundRuns, InputsGood, TaskSig, HasInputs, Current, SigsKept, Going, Underway, SameKey;
  }

  lemma StoredFresh(sc: Script, order: seq<Task>, files: map<Node, Content>, k: nat, s: Store, t: Task, g: Sig)
    requires k < |order| && sc.OneOutput(t)
             && Specs(sc, order, files, k + 1) == Specs(sc, order, files, k)[sc.Out(t) := g]
    requires sc.UidOf(t) in s.sigs && s.sigs[sc.UidOf(t)] == g
    ensures Stores(sc, order, files, k + 1, s, t)
  {
    hide Specs;
  }

  lemma StoredStill(sc: Script, order: seq<Task>, files: map<Node, Content>, k: nat, a: Store, b: Store, t: Task,
                    g: Sig, x: Task)
    requires k < |order| && sc.Valid() && sc.OneOutput(t)
             && Specs(sc, order, files, k + 1) == Specs(sc, order, files, k)[sc.Out(t) := g]
    requires x != t && Stores(sc, order, files, k, a, x)
    requires sc.UidOf(x) != sc.UidOf(t) ==> SameKey(a.sigs, b.sigs, sc.UidOf(x))
    ensures Stores(sc, order, files, k + 1, b, x)
  {
    hide Specs;
    UidsDiffer(sc, x, t);
  }

  /** From any point of a build, the tasks up to `k` can be brought up to date. */
  lemma {:induction false} BuildOn(f: Tool, sc: Script, order: seq<Task>, files: map<Node, Content>, i: nat, k: nat,
                                   s: Session)
    returns (r: Session)
    requires Buildable(sc, order) && Sourced(sc, files) && i <= k <= |order| && Upto(f, sc, order, files, i, s)
    ensures Upto(f, sc, order, files, k, r) && s.states != [] && r.states != [] && r.states[0] == s.states[0]
    ensures SoundRuns(sc, s.log) ==> SoundRuns(sc, r.log)
    ensures Stretch(f, sc, order, files, i, k, Now(s).store, Now(r).store)
    decreases k
  {
    hide Upto, Buildable, Sourced, Stretch, Built, SoundRuns, Due;
    if i == k {
      r := s;
      NoStretch(f, sc, order, files, i, s);
    } else {
      var q := BuildOn(f, sc, order, files, i, k - 1, s);
      r := Advance(f, sc, order, files, k - 1, q);
      StretchNext(f, sc, order, files, i, k - 1, Now(s).store, q, r);
      BuiltStarts(f, q, r, order[k - 1]);
    }
  }

  lemma BuiltStarts(f: Tool, s: Session, r: Session, t: Task)
    requires Due(f, s, t) && r.states != [] && Built(f, s, r, t)
    ensures s.states != [] && r.states[0] == s.states[0]
  {
  }

  lemma NoStretch(f: Tool, sc: Script, order: seq<Task>, files: map<Node, Content>, i: nat, s: Session)
    requires i <= |order| && Upto(f, sc, order, files, i, s)
    ensures s.states != [] && Stretch(f, sc, order, files, i, i, Now(s).store, Now(s).store)
  {
    assert order[i..i] == [];
  }

  // --- whole builds

  lemma StartsUpto(f: Tool, sc: Script, order: seq<Task>, files: map<Node, Content>, b: Store) returns (s: Session)
    requires Buildable(sc, order) && Stocked(sc.built, b) && SameSources(sc, files, b.files)
    ensures Upto(f, sc, order, files, 0, s) && SoundRuns(sc, s.log) && s.states == [Build(b, map[], map[])]
  {
    s := Begins(f, sc, b);
  }

  lemma SourcesSame(sc: Script, files: map<Node, Content>)
    ensures SameSources(sc, files, files)
  {
  }

  lemma AllGood(f: Tool, sc: Script, order: seq<Task>, files: map<Node, Content>, s: Session)
    requires Buildable(sc, order) && Upto(f, sc, order, files, |order|, s)
    ensures s.sc == sc && s.Valid(f) && s.ErrorFree() && s.states != [] && Stocked(sc.built, s.After())
    ensures SameSources(sc, files, s.After().files)
  {
    assert order[..|order|] == order;
  }

  /** From any store with the sources in it, whatever earlier builds have left there, there is a build of the
      whole script that ends without an error. */
  lemma WholeBuild(f: Tool, sc: Script, order: seq<Task>, b: Store) returns (s: Session)
    requires Buildable(sc, order) && Sourced(sc, b.files) && Stocked(sc.built, b)
    ensures s.sc == sc && s.Valid(f) && s.ErrorFree() && SoundRuns(sc, s.log)
    ensures |s.states| == |s.log| + 1 && s.Before() == b
    ensures Upto(f, sc, order, b.files, |order|, s) && Stretch(f, sc, order, b.files, 0, |order|, b, s.After())
  {
    hide Upto, Buildable, Sourced, Stretch, SoundRuns, Stocked, SameSources;
    SourcesSame(sc, b.files);
    var s0 := StartsUpto(f, sc, order, b.files, b);
    s := BuildOn(f, sc, order, b.files, 0, |order|, s0);
    AllGood(f, sc, order, b.files, s);
  }
}
