/** A build that raises out of `start`: its files are left behind, and what it would have stored is not. */
module Interrupted {
  import opened Basics
  import opened Graphs
  import opened TaskOrder
  import opened Schedule
  import opened Deadlock
  import opened Signatures
  import opened Incremental
  import opened Replay
  import opened Reach
  import opened Runs

  /** A command that writes its variables followed by its first input. */
  const CAT: Tool := (code, vars, xs) => if |xs| == 0 then vars else vars + xs[0]

  function Gen(name: string): Kind {
    Kind(name, [], [], [], [], name)
  }

  /** One task, which makes file 1 from source 0. */
  function OneTask(): Script {
    Script(map[0 := Info([0], [], [1], Gen("p"))], map[0 := "p"], {1, 2, 3})
  }

  /** Besides, tasks 1 and 2, which make files 2 and 3 from nothing. */
  function ThreeTasks(): Script {
    Script(map[0 := Info([0], [], [1], Gen("p")), 1 := Info([], [], [2], Gen("q")), 2 := Info([], [], [3], Gen("r"))],
           map[0 := "p", 1 := "q", 2 := "r"], {1, 2, 3})
  }

  /** The scripts above, as far as task 0 is concerned. */
  ghost predicate MakesOne(sc: Script) {
    && sc.Valid() && sc.built == {1, 2, 3} && sc.OneOutput(0) && sc.Out(0) == 1 && sc.Deps(0) == [0]
    && sc.UidOf(0) == Uid("p", [0, 1]) && sc.info[0].kind.code == "p" && sc.vars[0] == "p"
    && forall q, t :: !Feeds(sc, q, t)
  }

  lemma BothMakeOne()
    ensures MakesOne(OneTask()) && OneTask().info.Keys == {0}
    ensures MakesOne(ThreeTasks()) && ThreeTasks().info.Keys == {0, 1, 2}
  {
    TasksAre();
    hide OneTask, ThreeTasks, MakesOne;
    FirstReads(OneTask());
    FirstReads(ThreeTasks());
  }

  lemma TasksAre()
    ensures OneTask().info.Keys == OneTask().vars.Keys == {0}
            && ThreeTasks().info.Keys == ThreeTasks().vars.Keys == {0, 1, 2}
    ensures LikeThree(OneTask()) && LikeThree(ThreeTasks())
  {
  }

  ghost predicate LikeThree(sc: Script) {
    && 0 in sc.info && 0 in sc.vars && sc.info[0] == Info([0], [], [1], Gen("p")) && sc.vars[0] == "p"
         && sc.built == {1, 2, 3}
    && (1 in sc.info ==> sc.info[1] == Info([], [], [2], Gen("q")))
    && (2 in sc.info ==> sc.info[2] == Info([], [], [3], Gen("r")))
  }

  ghost predicate Outputs(sc: Script) {
    && sc.OneOutput(0) && sc.Out(0) == 1 && sc.Deps(0) == [0] && sc.UidOf(0) == Uid("p", [0, 1])
    && (1 in sc.info ==> sc.OneOutput(1) && sc.Out(1) == 2 && sc.Deps(1) == [])
    && (2 in sc.info ==> sc.OneOutput(2) && sc.Out(2) == 3 && sc.Deps(2) == [])
  }

  lemma OutputsAre(sc: Script)
    requires LikeThree(sc)
    ensures Outputs(sc)
  {
    assert [0] + [] == [0] && [0] + [1] == [0, 1];
  }

  lemma FirstReads(sc: Script)
    requires LikeThree(sc) && {0} <= sc.info.Keys <= {0, 1, 2} && sc.vars.Keys == sc.info.Keys
    ensures MakesOne(sc)
  {
    OutputsAre(sc);
    hide Script.OneOutput, Script.Out, Script.Deps, Script.UidOf;
  }

  function HashOf(src: Content): Sig {
    TaskHash("p", [FileHash(src)], "p")
  }

  lemma OneSig(sc: Script, s: Store)
    requires MakesOne(sc) && 0 in s.files
    ensures HasInputs(sc, s, 0) && TaskSig(sc, s, 0) == HashOf(s.files[0])
    ensures CanRead(s.files, [0]) && Written(CAT, sc, s.files, 0) == "p" + s.files[0]
    ensures 1 in s.files ==> (UpToDate(CAT, sc, s.files, 0) <==> s.files[1] == "p" + s.files[0])
  {
    assert TaskSig(sc, s, 0).deps == [FileHash(s.files[0])];
    assert Contents(s.files, [0]) == [s.files[0]];
  }

  ghost predicate OneCurrent(s: Store) {
    && 0 in s.files && Uid("p", [0, 1]) in s.sigs && s.sigs[Uid("p", [0, 1])] == HashOf(s.files[0])
    && 1 in s.nodeSig && s.nodeSig[1] == HashOf(s.files[0])
  }

  lemma StartsDue(sc: Script, b: Store) returns (s: Session)
    requires MakesOne(sc) && 0 in b.files && Stocked({1, 2, 3}, b)
    ensures s == Session(sc, [], [Build(b, map[], map[])]) && Due(CAT, s, 0) && SoundRuns(sc, s.log)
            && Now(s).store == b
    ensures Current(sc, b, 0) <==> OneCurrent(b)
  {
    OneSig(sc, b);
    s := Begins(CAT, sc, b);
  }

  /** A complete build of the one task, which is run unless it is current. */
  lemma OneBuild(b: Store) returns (s: Session)
    requires 0 in b.files && Stocked({1, 2, 3}, b)
    ensures s.sc == OneTask() && s.Valid(CAT) && s.ErrorFree() && |s.states| == |s.log| + 1 && s.Before() == b
    ensures OneCurrent(s.After()) && Stocked({1, 2, 3}, s.After())
    ensures 0 in s.After().files && s.After().files[0] == b.files[0]
    ensures 1 in s.After().files
    ensures s.After().files[1] == if OneCurrent(b) && 1 in b.files then b.files[1] else "p" + b.files[0]
  {
    BothMakeOne();
    OneSig(OneTask(), b);
    var s0 := StartsDue(OneTask(), b);
    s := BuildStep(CAT, s0, 0);
    BuiltSound(CAT, s0, s, 0);
    BuiltStarts(CAT, s0, s, 0);
    hide Going, TaskSig, HasInputs, SoundRuns, Written, CanRead, SigsKept, UpToDate, OneTask, MakesOne;
    assert SameFile(b.files, Now(s).store.files, 0);
  }

  // --- a run of the scheduler that raises

  /** The three tasks in one group. */
  function CirclePlan(keep: nat, jobs: nat): Plan {
    Plan([[0, 1, 2]], map[0 := [], 1 := [], 2 := []], ThreeTasks().info,
         map[0 := InGroup(0, 0), 1 := InGroup(0, 1), 2 := InGroup(0, 2)],
         map[0 := 0, 1 := 0, 2 := 0], map[0 := 0, 1 := 0, 2 := 0], keep, jobs)
  }

  /** Tasks 1 and 2 are told to wait for each other. */
  ghost function Circle(): RunAfter {
    map[0 := {}, 1 := {2}, 2 := {1}]
  }

  lemma CircleLists(keep: nat, jobs: nat, t: Task, o: Origin)
    ensures var p := CirclePlan(keep, jobs); p.Lists(t, o) <==> t in p.origin && p.origin[t] == o
  {
  }

  lemma CircleValid(keep: nat, jobs: nat)
    requires jobs >= 1
    ensures CirclePlan(keep, jobs).Valid() && CirclePlan(keep, jobs).All() == {0, 1, 2} == Circle().Keys
    ensures Constrains(CirclePlan(keep, jobs), 0, Circle(), Circle())
  {
    var p := CirclePlan(keep, jobs);
    forall t, o
      ensures p.Lists(t, o) <==> t in p.origin && p.origin[t] == o
    {
      CircleLists(keep, jobs, t, o);
    }
    assert [0] + [] == [0] && [] + [] == Reads(p.info[1]) == Reads(p.info[2]);
    forall q, t
      ensures !Precedes(p, q, t)
    {
    }
  }

  /** "Deadlock detected": nothing has moved since the frozen tasks were tried last. */
  ghost predicate Raises(p: Plan, log: seq<Event>) {
    exists s :: Reachable(p, s) && Stuck(s) && !s.stop && s.deadlock == Some(s.processed) && s.log == log
  }

  ghost function RanOne(): seq<Event> {
    [Queue(0), Begin(0), End(0, Success)]
  }

  /** The frozen tasks are taken up and put off again. */
  lemma PutOffAgain(p: Plan, s: Sched)
    requires Reachable(p, s) && Free(p, s) && s.outstanding == [1, 2] && s.frozen == [] && s.current == [] && !s.stop
    requires s.Blocked(1) && s.Blocked(2)
    ensures Reachable(p, s.(outstanding := [], cleared := true, frozen := [1, 2]))
  {
    hide Reachable;
    assert [1, 2][1..] == [2] && [2][1..] == [] && [] + [1] == [1] && [1] + [2] == [1, 2];
    PutsOff(p, s);
    var r := s.(outstanding := [2], cleared := true, frozen := [1]);
    assert r.Blocked(2);
    PutsOff(p, r);
  }

  /** Task 0 is run, and then nothing else can be. */
  lemma CircleRaises(p: Plan, s: Sched)
    requires Reachable(p, s) && s == StartSched(Circle()).(outstanding := [0, 1, 2], cur := 1)
    requires p.more == map[0 := [], 1 := [], 2 := []] && p.numjobs >= 1
    ensures Raises(p, RanOne())
  {
    hide Reachable;
    assert [0, 1, 2][1..] == [1, 2] && [] + [0] == [0] && [] + [1, 2] == [1, 2] && [] + RanOne() == RanOne();
    Works(p, s, 0, Success);
    var w := Worked(s, 0, Success);
    assert 2 in w.runAfter[1] && 1 in w.runAfter[2];
    assert w.Blocked(1) && w.Blocked(2);
    PutOffAgain(p, w);
    var f := w.(outstanding := [], cleared := true, frozen := [1, 2]);
    Collecting(p, f);
    assert [] + p.more[0] == [];
    var c := Collected(p, f);
    Mains(p, c, TakeFrozen(c));
    var c1 := TakeFrozen(c);
    assert c1.Blocked(1) && c1.Blocked(2);
    PutOffAgain(p, c1);
    GivesUp(p, c1.(outstanding := [], cleared := true, frozen := [1, 2]));
  }

  lemma GivesUp(p: Plan, s: Sched)
    requires Reachable(p, s) && Free(p, s) && s.outstanding == [] && s.frozen == [1, 2] && s.current == [] && !s.stop
    requires s.Blocked(1) && s.Blocked(2) && s.count == 0 && s.deadlock == None
    ensures Raises(p, s.log)
  {
    hide Reachable;
    assert [] + [1, 2] == [1, 2];
    var r := RetryFrozen(s);
    Mains(p, s, r);
    assert r.Blocked(1) && r.Blocked(2);
    PutOffAgain(p, r);
    var u := r.(outstanding := [], cleared := true, frozen := [1, 2]);
    assert u.Blocked(1) && u.Blocked(2);
    assert Stuck(u) && u.deadlock == Some(u.processed) && u.log == s.log;
  }

  // --- the files stay, the signatures are gone

  /** A first build; then the source is changed and two tasks are added that wait for each other, and the build
      raises; last, source and script are as they were. The second build has run a command and never reached
      `store`, so the third finds the signatures of the first with the files of the second. */
  ghost predicate StoreLost(first: Session, lost: Session, last: Session) {
    && first.Valid(CAT) && lost.Valid(CAT) && last.Valid(CAT)
    && first.sc == last.sc == OneTask() && lost.sc == ThreeTasks()
    && |first.states| == |first.log| + 1 && |lost.states| == |lost.log| + 1 && |last.states| == |last.log| + 1
    && first.ErrorFree() && last.ErrorFree()
    && first.Before() == Store(map[], map[], map[0 := "a"])
    && lost.Before() == first.After().(files := first.After().files[0 := "b"])
    && last.Before() == first.After().(files := lost.After().files[0 := "a"])
  }

  /** The build that raises, up to there. */
  lemma LostBuild(b: Store) returns (s: Session)
    requires 0 in b.files && Stocked({1, 2, 3}, b) && !OneCurrent(b)
    ensures s.sc == ThreeTasks() && s.Valid(CAT) && |s.states| == |s.log| + 1 && s.Before() == b && s.log == RanOne()
    ensures s.After().files == b.files[1 := "p" + b.files[0]]
  {
    BothMakeOne();
    OneSig(ThreeTasks(), b);
    var s0 := StartsDue(ThreeTasks(), b);
    assert [] + RanOne() == RanOne();
    s := RunStep(CAT, s0, 0);
    hide TaskSig, HasInputs, SoundRuns, Written, CanRead, SigsKept, ThreeTasks, Session.Valid;
    LaterStates(CAT, s0, s, 0);
  }

  lemma LostFirst(a: Store, b: Store)
    requires OneCurrent(a) && a.files[0] == "a" && b == a.(files := a.files[0 := "b"])
    ensures !OneCurrent(b)
  {
    assert HashOf("a").deps[0] == FileHash("a") && HashOf("b").deps[0] == FileHash("b");
    assert "a"[0] != "b"[0];
  }

  lemma LostLast(a: Store, files: map<Node, Content>)
    requires OneCurrent(a) && Stocked({1, 2, 3}, a) && a.files[0] == "a" && files == a.files[0 := "b"][1 := "pb"]
    ensures OneCurrent(a.(files := files[0 := "a"])) && Stocked({1, 2, 3}, a.(files := files[0 := "a"]))
  {
  }

  /** With any `keep` and any number of jobs a build can raise like that, and leave a file behind that the next
      error-free build of the old script takes for its own. */
  lemma LostStoreGoesStale(keep: nat, jobs: nat)
    requires jobs >= 1
    ensures exists first: Session, lost: Session, last: Session ::
      StoreLost(first, lost, last) && Raises(CirclePlan(keep, jobs), lost.log)
        && !UpToDate(CAT, last.sc, last.After().files, 0)
  {
    CircleValid(keep, jobs);
    StartsGroup(CirclePlan(keep, jobs), Circle());
    CircleRaises(CirclePlan(keep, jobs), StartSched(Circle()).(outstanding := [0, 1, 2], cur := 1));
    BothMakeOne();
    hide *;
    var first, lost, last := ThreeBuilds();
  }

  lemma ThreeBuilds() returns (first: Session, lost: Session, last: Session)
    ensures StoreLost(first, lost, last) && lost.log == RanOne() && !UpToDate(CAT, last.sc, last.After().files, 0)
  {
    hide UpToDate, Session.Valid, Session.ErrorFree, HashOf, OneTask, ThreeTasks, OneCurrent, RanOne, Stocked;
    StockedEmpty();
    first := OneBuild(Store(map[], map[], map[0 := "a"]));
    LostFirst(first.After(), first.After().(files := first.After().files[0 := "b"]));
    StockedEdited(first.After(), "b");
    lost := LostBuild(first.After().(files := first.After().files[0 := "b"]));
    TextIs();
    LostLast(first.After(), lost.After().files);
    last := OneBuild(first.After().(files := lost.After().files[0 := "a"]));
    BothMakeOne();
    OneSig(OneTask(), last.After());
  }

  lemma StockedEmpty()
    ensures Stocked({1, 2, 3}, Store(map[], map[], map[0 := "a"]))
  {
  }

  lemma StockedEdited(s: Store, x: Content)
    requires Stocked({1, 2, 3}, s)
    ensures Stocked({1, 2, 3}, s.(files := s.files[0 := x]))
  {
  }

  lemma TextIs()
    ensures "p" + "b" == "pb" && "p" + "a" != "pb"
  {
    assert ("p" + "a")[1] == 'a' && "pb"[1] == 'b';
  }
}
