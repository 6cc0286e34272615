/** waflib/Task.py and waflib/Node.py: the stored signatures that decide whether a task is run. The hash
    is taken to be injective, so that a signature is the term that was hashed. */
module Signatures {
  import opened Basics
  import opened TaskOrder
  import opened Schedule

  type Content = string

  /** `h_file` of a file, or the digest a task computes from its code, its dependencies and its variables. */
  datatype Sig = FileHash(content: Content) | TaskHash(code: string, deps: seq<Sig>, vars: string)

  /** What a command writes, as a function of its code, its variables and what it reads. */
  type Tool = (string, string, seq<Content>) -> Content

  /** The content a signature stands for: what commands would write all the way up from the hashed sources. */
  function Meaning(f: Tool, s: Sig): Content {
    match s
    case FileHash(c) => c
    case TaskHash(code, ds, vars) => f(code, vars, seq(|ds|, i requires 0 <= i < |ds| => Meaning(f, ds[i])))
  }

  /** `uid`: the class name with the paths of the inputs and outputs. */
  datatype Uid = Uid(name: string, paths: seq<Node>)

  /** What one build is told: its tasks, the variables each is sensitive to, and which files belong to the
      build directory. */
  datatype Script = Script(info: map<Task, Info>, vars: map<Task, string>, built: set<Node>)
  {
    function Deps(t: Task): seq<Node>
      requires t in info
    {
      Reads(info[t])
    }

    predicate OneOutput(t: Task) {
      t in info && |info[t].outputs| == 1
    }

    function Out(t: Task): Node
      requires OneOutput(t)
    {
      info[t].outputs[0]
    }

    function UidOf(t: Task): Uid
      requires t in info
    {
      Uid(info[t].kind.name, info[t].inputs + info[t].outputs)
    }

    ghost predicate Makes(q: Task, n: Node) {
      OneOutput(q) && Out(q) == n
    }

    /** Every task writes one file of the build directory, no two the same one, and every file of the
        build directory that is read is written by some task. */
    ghost predicate Valid() {
      && vars.Keys == info.Keys
      && (forall t :: t in info ==> OneOutput(t) && Out(t) in built)
      && (forall t, q :: t in info && q in info && OneOutput(t) && OneOutput(q) && Out(t) == Out(q) ==> t == q)
      && (forall t, n :: t in info && n in Deps(t) && n in built ==> exists q :: Makes(q, n))
    }
  }

  /** What `store` keeps for the next build (`task_sigs` and the `sig` of every node), and the files. */
  datatype Store = Store(sigs: map<Uid, Sig>, nodeSig: map<Node, Sig>, files: map<Node, Content>)

  /** A build in progress: besides, the signatures nodes and tasks have cached (`cache_sig`). */
  datatype Build = Build(store: Store, nodeCache: map<Node, Sig>, sigOf: map<Task, Sig>)

  function PutFile(files: map<Node, Content>, n: Node, g: Option<Content>): map<Node, Content> {
    match g
    case Some(c) => files[n := c]
    case None => files - {n}
  }

  // --- Node.get_bld_sig and Task.signature

  function Peek(sc: Script, b: Build, n: Node): Option<Sig> {
    if n in b.nodeCache then Some(b.nodeCache[n])
    else if n !in sc.built then
      if n in b.store.files then Some(FileHash(b.store.files[n])) else None
    else
      if n in b.store.nodeSig then Some(b.store.nodeSig[n]) else None
  }

  function Remember(sc: Script, b: Build, n: Node): Build {
    match Peek(sc, b, n)
    case None => b
    case Some(g) => b.(nodeCache := b.nodeCache[n := g],
                       store := if n in b.nodeCache || n in sc.built then b.store
                                else b.store.(nodeSig := b.store.nodeSig[n := g]))
  }

  /** The dependencies are asked for their signatures in order, up to the first that has none. */
  function RememberAll(sc: Script, b: Build, deps: seq<Node>): Build
    decreases |deps|
  {
    if deps == [] || Peek(sc, b, deps[0]).None? then b
    else RememberAll(sc, Remember(sc, b, deps[0]), deps[1..])
  }

  function DepSigs(sc: Script, b: Build, deps: seq<Node>): Option<seq<Sig>>
    decreases |deps|
  {
    if deps == [] then Some([])
    else
      match Peek(sc, b, deps[0])
      case None => None
      case Some(g) =>
        match DepSigs(sc, Remember(sc, b, deps[0]), deps[1..])
        case None => None
        case Some(gs) => Some([g] + gs)
  }

  /** `signature`; `None` is the error "Missing node signature". */
  function Signature(sc: Script, b: Build, t: Task): Option<Sig>
    requires t in sc.info && t in sc.vars
  {
    if t in b.sigOf then Some(b.sigOf[t])
    else
      match DepSigs(sc, b, sc.Deps(t))
      case None => None
      case Some(gs) => Some(TaskHash(sc.info[t].kind.code, gs, sc.vars[t]))
  }

  function Signed(sc: Script, b: Build, t: Task): Build
    requires t in sc.info && t in sc.vars
  {
    if t in b.sigOf then b
    else
      var r := RememberAll(sc, b, sc.Deps(t));
      match Signature(sc, b, t)
      case None => r
      case Some(g) => r.(sigOf := r.sigOf[t := g])
  }

  // --- Task.runnable_status, process and post_run

  datatype Verdict = RunMe | SkipMe | NoSignature

  function Decide(sc: Script, b: Build, t: Task): Verdict
    requires sc.OneOutput(t) && t in sc.vars
  {
    match Signature(sc, b, t)
    case None => NoSignature
    case Some(g) =>
      if sc.UidOf(t) !in b.store.sigs then RunMe
      else if sc.Out(t) !in b.store.nodeSig || b.store.nodeSig[sc.Out(t)] != g then RunMe
      else if g != b.store.sigs[sc.UidOf(t)] then RunMe
      else SkipMe
  }

  /** The stored signature goes before the command starts; from here until the command has ended well its
      output file may hold anything, or be missing. */
  function Launched(sc: Script, b: Build, t: Task, g: Option<Content>): Build
    requires sc.OneOutput(t)
  {
    b.(store := b.store.(sigs := b.store.sigs - {sc.UidOf(t)}, files := PutFile(b.store.files, sc.Out(t), g)))
  }

  function Failed(sc: Script, b: Build, t: Task, g: Option<Content>): Build
    requires sc.OneOutput(t)
  {
    b.(store := b.store.(files := PutFile(b.store.files, sc.Out(t), g)))
  }

  predicate CanRead(files: map<Node, Content>, deps: seq<Node>) {
    forall d :: d in deps ==> d in files
  }

  function Contents(files: map<Node, Content>, deps: seq<Node>): seq<Content>
    requires CanRead(files, deps)
  {
    seq(|deps|, i requires 0 <= i < |deps| => files[deps[i]])
  }

  /** The command has written its output, and `post_run` stores the signature with the node and the task. */
  function Stored(sc: Script, f: Tool, b: Build, t: Task): Build
    requires sc.OneOutput(t) && t in sc.vars && t in b.sigOf && CanRead(b.store.files, sc.Deps(t))
  {
    var g, n := b.sigOf[t], sc.Out(t);
    var written := f(sc.info[t].kind.code, sc.vars[t], Contents(b.store.files, sc.Deps(t)));
    b.(store := b.store.(files := b.store.files[n := written],
                         nodeSig := b.store.nodeSig[n := g],
                         sigs := b.store.sigs[sc.UidOf(t) := g]))
  }

  /** What an event of the scheduler's log does to the build. */
  ghost predicate Does(sc: Script, f: Tool, b: Build, e: Event, c: Build) {
    var t := e.task;
    && sc.OneOutput(t) && t in sc.vars
    && match e
       case Queue(_) => Decide(sc, b, t) == RunMe && c == Signed(sc, b, t)
       case Skip(_) => Decide(sc, b, t) == SkipMe && c == Signed(sc, b, t)
       case Broke(_, _) => Decide(sc, b, t) == NoSignature && c == Signed(sc, b, t)
       case Begin(_) => exists g :: c == Launched(sc, b, t, g)
       case End(_, st) =>
         if st == Success then t in b.sigOf && CanRead(b.store.files, sc.Deps(t)) && c == Stored(sc, f, b, t)
         else exists g :: c == Failed(sc, b, t, g)
  }

  /** The fields of the build context, its nodes and its tasks that signatures live in. */
  class BuildState {
    const sc: Script
    var taskSigs: map<Uid, Sig>
    var nodeSig: map<Node, Sig>
    var files: map<Node, Content>
    var nodeCache: map<Node, Sig>
    var sigOf: map<Task, Sig>

    ghost function Snap(): Build
      reads this
    {
      Build(Store(taskSigs, nodeSig, files), nodeCache, sigOf)
    }

    constructor (sc: Script, s: Store)
      ensures this.sc == sc && Snap() == Build(s, map[], map[])
    {
      this.sc := sc;
      taskSigs, nodeSig, files := s.sigs, s.nodeSig, s.files;
      nodeCache, sigOf := map[], map[];
    }

    method GetBldSig(n: Node) returns (g: Option<Sig>)
      modifies `nodeCache, `nodeSig
      ensures g == Peek(sc, old(Snap()), n) && Snap() == Remember(sc, old(Snap()), n)
      ensures n in old(nodeCache) ==> g == Some(old(nodeCache)[n])
      ensures n !in old(nodeCache) && n !in sc.built ==> g == if n in files then Some(FileHash(files[n])) else None
      ensures n !in old(nodeCache) && n in sc.built ==> g == if n in old(nodeSig) then Some(old(nodeSig)[n]) else None
      ensures g.Some? ==> nodeCache == old(nodeCache)[n := g.value]
    {
      if n in nodeCache {
        assert nodeCache[n := nodeCache[n]] == nodeCache;
        return Some(nodeCache[n]);
      }
      if n !in sc.built {
        if n !in files {
          return None;
        }
        nodeSig := nodeSig[n := FileHash(files[n])];
      }
      if n !in nodeSig {
        return None;
      }
      nodeCache := nodeCache[n := nodeSig[n]];
      return Some(nodeSig[n]);
    }

    method ComputeSignature(t: Task) returns (g: Option<Sig>)
      requires t in sc.info && t in sc.vars
      modifies `nodeCache, `nodeSig, `sigOf
      ensures g == Signature(sc, old(Snap()), t) && Snap() == Signed(sc, old(Snap()), t)
      ensures t !in old(sigOf) && g.Some? ==>
        && g.value.TaskHash? && g.value.code == sc.info[t].kind.code && g.value.vars == sc.vars[t]
        && |g.value.deps| == |sc.info[t].inputs| + |sc.info[t].depNodes|
    {
      if t in sigOf {
        return Some(sigOf[t]);
      }
      ghost var b := Snap();
      var deps := sc.Deps(t);
      var gs: seq<Sig> := [];
      var i := 0;
      assert deps[0..] == deps;
      PrependNothing(DepSigs(sc, b, deps));
      while i < |deps|
        invariant 0 <= i <= |deps|
        invariant sigOf == b.sigOf && |gs| == i
        invariant Snap().store.sigs == b.store.sigs && Snap().store.files == b.store.files
        invariant RememberAll(sc, b, deps) == RememberAll(sc, Snap(), deps[i..])
        invariant DepSigs(sc, b, deps) == Prepend(gs, DepSigs(sc, Snap(), deps[i..]))
      {
        assert deps[i..][1..] == deps[i + 1..];
        var x := GetBldSig(deps[i]);
        match x
        case None => return None;
        case Some(v) =>
          PrependAgain(gs, v, DepSigs(sc, Snap(), deps[i + 1..]));
          gs := gs + [v];
        i := i + 1;
      }
      assert deps[i..] == [] && gs + [] == gs;
      var sig := TaskHash(sc.info[t].kind.code, gs, sc.vars[t]);
      sigOf := sigOf[t := sig];
      return Some(sig);
    }

    method RunnableStatus(t: Task) returns (v: Verdict)
      requires sc.OneOutput(t) && t in sc.vars && sc.Out(t) in sc.built
      modifies `nodeCache, `nodeSig, `sigOf
      ensures v == Decide(sc, old(Snap()), t) && Snap() == Signed(sc, old(Snap()), t)
      ensures v == NoSignature <==> Signature(sc, old(Snap()), t).None?
      ensures v == SkipMe <==>
        var uid, n, g := Uid(sc.info[t].kind.name, sc.info[t].inputs + sc.info[t].outputs), sc.info[t].outputs[0],
          Signature(sc, old(Snap()), t);
        uid in taskSigs && n in old(nodeSig) && g == Some(taskSigs[uid]) && g == Some(old(nodeSig)[n])
    {
      ghost var b := Snap();
      var g := ComputeSignature(t);
      SignedKeeps(sc, b, t);
      match g
      case None => return NoSignature;
      case Some(newSig) =>
        var key := sc.UidOf(t);
        if key !in taskSigs {
          return RunMe;
        }
        if sc.Out(t) !in nodeSig || nodeSig[sc.Out(t)] != newSig {
          return RunMe;
        }
        if newSig != taskSigs[key] {
          return RunMe;
        }
        return SkipMe;
    }

    /** The part of `process` before `run`. */
    method DropSignature(t: Task)
      requires sc.OneOutput(t)
      modifies `taskSigs
      ensures taskSigs == old(taskSigs) - {Uid(sc.info[t].kind.name, sc.info[t].inputs + sc.info[t].outputs)}
      ensures forall g ::
        Snap().(store := Snap().store.(files := PutFile(files, sc.Out(t), g))) == Launched(sc, old(Snap()), t, g)
    {
      taskSigs := taskSigs - {sc.UidOf(t)};
    }

    /** `post_run`, once the command is over and has left `out` in the task's output. A missing output is an
        error, and then nothing is stored. */
    method PostRun(t: Task, ghost f: Tool, out: Option<Content>) returns (missing: bool)
      requires sc.OneOutput(t) && t in sc.vars && t in sigOf && CanRead(files, sc.Deps(t))
      requires out.Some? ==> out.value == f(sc.info[t].kind.code, sc.vars[t], Contents(files, sc.Deps(t)))
      modifies `files, `nodeSig, `taskSigs
      ensures missing <==> out.None?
      ensures Snap() == if missing then Failed(sc, old(Snap()), t, None) else Stored(sc, f, old(Snap()), t)
    {
      files := PutFile(files, sc.Out(t), out);
      if sc.Out(t) !in files {
        return true;
      }
      var sig := sigOf[t];
      nodeSig := nodeSig[sc.Out(t) := sig];
      taskSigs := taskSigs[sc.UidOf(t) := sig];
      return false;
    }
  }

  ghost function Prepend(gs: seq<Sig>, r: Option<seq<Sig>>): Option<seq<Sig>> {
    match r
    case None => None
    case Some(s) => Some(gs + s)
  }

  lemma PrependNothing(r: Option<seq<Sig>>)
    ensures Prepend([], r) == r
  {
    if r.Some? {
      assert [] + r.value == r.value;
    }
  }

  lemma PrependAgain(gs: seq<Sig>, g: Sig, r: Option<seq<Sig>>)
    ensures Prepend(gs, Prepend([g], r)) == Prepend(gs + [g], r)
  {
    if r.Some? {
      assert gs + ([g] + r.value) == gs + [g] + r.value;
    }
  }

  /** Computing a signature touches nothing but caches, and the `sig` of source files. */
  lemma {:induction false} RememberKeeps(sc: Script, b: Build, deps: seq<Node>)
    ensures RememberAll(sc, b, deps).sigOf == b.sigOf
    ensures RememberAll(sc, b, deps).store.sigs == b.store.sigs && RememberAll(sc, b, deps).store.files == b.store.files
    ensures forall n :: n in sc.built ==>
      (n in RememberAll(sc, b, deps).store.nodeSig <==> n in b.store.nodeSig)
    ensures forall n :: n in sc.built && n in b.store.nodeSig ==>
      RememberAll(sc, b, deps).store.nodeSig[n] == b.store.nodeSig[n]
    decreases |deps|
  {
    if deps != [] && Peek(sc, b, deps[0]).Some? {
      RememberKeeps(sc, Remember(sc, b, deps[0]), deps[1..]);
    }
  }

  lemma SignedKeeps(sc: Script, b: Build, t: Task)
    requires t in sc.info && t in sc.vars
    ensures Signed(sc, b, t).store.sigs == b.store.sigs && Signed(sc, b, t).store.files == b.store.files
    ensures forall n :: n in sc.built ==> (n in Signed(sc, b, t).store.nodeSig <==> n in b.store.nodeSig)
    ensures forall n :: n in sc.built && n in b.store.nodeSig ==>
      Signed(sc, b, t).store.nodeSig[n] == b.store.nodeSig[n]
  {
    RememberKeeps(sc, b, sc.Deps(t));
  }
}
