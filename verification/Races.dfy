/** A command run on the output of a failed one: when the scheduler lets that happen, and what incremental
    builds then come to. The scheduler and the project are the smallest ones there are: one group of two tasks,
    the second of which reads what the first writes. */
module Races {
  import opened Basics
  import opened Graphs
  import opened TaskOrder
  import opened Schedule
  import opened ScheduleProofs
  import opened Deadlock
  import opened Signatures
  import opened Incremental
  import opened Replay
  import opened Sound
  import opened Reach
  import opened Runs
  import opened Interrupted
  import opened Stale

  function Step(inputs: seq<Node>, output: Node, name: string): Info {
    Info(inputs, [], [output], Kind(name, [], [], [], [], name))
  }

  /** Task 0 makes file 1 from source 0, task 1 makes file 2 from file 1. */
  function Chain(): Script {
    Script(map[0 := Step([0], 1, "p"), 1 := Step([1], 2, "c")], map[0 := "p", 1 := "c"], {1, 2})
  }

  function ChainPlan(keep: nat, jobs: nat): Plan {
    Plan([[0, 1]], map[0 := [], 1 := []], Chain().info, map[0 := InGroup(0, 0), 1 := InGroup(0, 1)],
         map[0 := 0, 1 := 0], map[0 := 0, 1 := 0], keep, jobs)
  }

  lemma ChainLists(keep: nat, jobs: nat, t: Task, o: Origin)
    ensures var p := ChainPlan(keep, jobs); p.Lists(t, o) <==> t in p.origin && p.origin[t] == o
  {
  }

  lemma ChainWellFormed()
    ensures Chain().Valid() && Chain().OneOutput(0) && Chain().OneOutput(1) && Chain().Out(0) == 1
            && Chain().Out(1) == 2
    ensures Chain().Deps(0) == [0] && Chain().Deps(1) == [1] && Chain().info.Keys == {0, 1}
    ensures Chain().UidOf(0) == Uid("p", [0, 1]) && Chain().UidOf(1) == Uid("c", [1, 2])
    ensures forall q, t :: Feeds(Chain(), q, t) <==> q == 0 && t == 1
  {
    ChainTasks();
    hide Chain;
    forall q, t
      ensures Feeds(Chain(), q, t) <==> q == 0 && t == 1
    {
    }
    ChainMade();
  }

  lemma ChainTasks()
    ensures var sc := Chain();
      && sc.info.Keys == sc.vars.Keys == {0, 1} && sc.built == {1, 2}
      && sc.OneOutput(0) && sc.OneOutput(1) && sc.Out(0) == 1 && sc.Out(1) == 2 && sc.Deps(0) == [0]
           && sc.Deps(1) == [1]
      && sc.UidOf(0) == Uid("p", [0, 1]) && sc.UidOf(1) == Uid("c", [1, 2])
  {
    assert [0] + [] == [0] && [1] + [] == [1] && [0] + [1] == [0, 1] && [1] + [2] == [1, 2];
  }

  lemma ChainMade()
    ensures Chain().Valid()
  {
    ChainTasks();
    hide Chain, Script.UidOf;
    assert Chain().Makes(0, 1);
  }

  lemma ChainPlanValid(keep: nat, jobs: nat)
    requires jobs >= 1
    ensures ChainPlan(keep, jobs).Valid() && ChainPlan(keep, jobs).All() == {0, 1}
  {
    var p := ChainPlan(keep, jobs);
    forall t, o
      ensures p.Lists(t, o) <==> t in p.origin && p.origin[t] == o
    {
      ChainLists(keep, jobs, t, o);
    }
  }

  lemma ChainPrecedes(p: Plan, q: Task, t: Task)
    requires p.info == Chain().info && p.origin == map[0 := InGroup(0, 0), 1 := InGroup(0, 1)]
    ensures Precedes(p, q, t) <==> q == 0 && t == 1
  {
    assert [0] + [] == [0] && [1] + [] == [1];
    assert 1 in p.info[0].outputs && Reads(p.info[0]) == [0] && Reads(p.info[1]) == [1];
  }

  lemma ChainInOrder(keep: nat, jobs: nat)
    ensures ProducersInOrder(ChainPlan(keep, jobs), Chain())
  {
    ChainWellFormed();
    ChainPrecedes(ChainPlan(keep, jobs), 0, 1);
  }

  lemma ChainConstrained(keep: nat, jobs: nat)
    ensures Constrains(ChainPlan(keep, jobs), 0, map[0 := {}, 1 := {}], map[0 := {}, 1 := {0}])
  {
    var p := ChainPlan(keep, jobs);
    forall q, t
      ensures Precedes(p, q, t) <==> q == 0 && t == 1
    {
      ChainPrecedes(p, q, t);
    }
    hide Precedes, Chain;
    assert 0 in Elements(p.groups[0]) by {
      assert p.groups[0][0] == 0;
    }
  }

  // --- runs of the scheduler

  /** `start` has come to its end. */
  ghost predicate Over(p: Plan, s: Sched) {
    s.count == 0 && (s.stop || Finished(p, s))
  }

  /** No worker is busy. */
  ghost predicate Calm(s: Sched) {
    && s.ready == [] && s.fetched == {} && s.running == {} && s.failed == {} && s.stopping == {} && s.returning == {}
    && s.current == [] && s.frozen == []
  }

  ghost predicate Takeable(p: Plan, s: Sched, t: Task) {
    && s.outstanding != [] && s.outstanding[0] == t && !s.stop && t in s.runAfter && s.runAfter[t] <= s.hasrun.Keys
    && p.numjobs >= 1 && s.count <= p.numjobs * GAP
  }

  /** A task is run, and handed back after its failure, if there is one, has been dealt with. */
  ghost function Through(p: Plan, s: Sched, t: Task, st: Status): Sched
    requires s.outstanding != []
  {
    s.(outstanding := s.outstanding[1..], cleared := true, count := s.count + 1, processed := s.processed + 1,
       hasrun := s.hasrun[t := st], log := s.log + [Queue(t), Begin(t), End(t, st)], out := s.out + [t],
       stop := st != Success && p.keep == 0, error := if st == Success then s.error else s.error + [t])
  }

  lemma GoesThrough(p: Plan, s: Sched, t: Task, st: Status)
    requires Reachable(p, s) && Calm(s) && Takeable(p, s, t) && st != Skipped
    ensures Reachable(p, Through(p, s, t, st))
  {
    hide Reachable;
    Works(p, s, t, st);
    var q := Worked(s, t, st);
    assert {} + {t} - {t} == {};
    if st == Success {
      assert q == Through(p, s, t, st);
    } else {
      Reports(p, q, t);
      assert q.(failed := {}, stop := p.keep == 0, error := s.error + [t], out := s.out + [t]) == Through(p, s, t, st);
    }
  }

  /** A plan like that of the chain, once its group has been handed out. */
  ghost predicate Starting(p: Plan, s: Sched) {
    && s == StartSched(map[0 := {}, 1 := {0}]).(outstanding := [0, 1], cur := 1)
    && |p.groups| == 1 && p.more == map[0 := [], 1 := []] && p.numjobs >= 1
  }

  /** Nothing is left but answers to collect. */
  ghost predicate Closing(p: Plan, s: Sched) {
    && s.count == |s.out| && s.outstanding == [] && s.cur == |p.groups| && Calm(s)
    && p.more == map[0 := [], 1 := []] && forall t :: t in s.out ==> t in p.more
  }

  /** The last answers are collected. */
  lemma Closes(p: Plan, s: Sched) returns (r: Sched)
    requires Reachable(p, s) && Closing(p, s)
    ensures Reachable(p, r) && Over(p, r) && r.log == s.log
    decreases |s.out|
  {
    hide Reachable;
    if s.out == [] {
      r := s;
    } else {
      assert [] + p.more[s.out[0]] == [];
      Collecting(p, s);
      r := Closes(p, Collected(p, s));
    }
  }

  /** Both tasks are run, one after the other. */
  lemma RunsBoth(p: Plan, s0: Sched, st0: Status, st1: Status) returns (s: Sched)
    requires Reachable(p, s0) && Starting(p, s0) && st0 != Skipped && st1 != Skipped && (st0 == Success || p.keep > 0)
    ensures Reachable(p, s) && Over(p, s)
    ensures s.log == [Queue(0), Begin(0), End(0, st0), Queue(1), Begin(1), End(1, st1)]
  {
    hide Reachable, Over;
    GoesThrough(p, s0, 0, st0);
    var s1 := Through(p, s0, 0, st0);
    assert [0, 1][1..] == [1] && [1][1..] == [];
    GoesThrough(p, s1, 1, st1);
    s := Closes(p, Through(p, s1, 1, st1));
    assert s.log == [] + [Queue(0), Begin(0), End(0, st0)] + [Queue(1), Begin(1), End(1, st1)];
  }

  /** The second task is skipped. */
  lemma SkipsSecond(p: Plan, s0: Sched) returns (s: Sched)
    requires Reachable(p, s0) && Starting(p, s0)
    ensures Reachable(p, s) && Over(p, s) && s.log == [Queue(0), Begin(0), End(0, Success), Skip(1)]
  {
    hide Reachable, Over;
    GoesThrough(p, s0, 0, Success);
    var s1 := Through(p, s0, 0, Success);
    assert [0, 1][1..] == [1] && [1][1..] == [] && [] + p.more[1] == [];
    Takes(p, s1);
    var q := s1.(current := [1], cleared := true, outstanding := []);
    Mains(p, q, SkipTask(p, q));
    s := Closes(p, SkipTask(p, q));
    assert s.log == [] + [Queue(0), Begin(0), End(0, Success)] + [Skip(1)];
  }

  /** With two workers, the second task is run before the failure of the first has been dealt with. */
  lemma RacesAhead(p: Plan, s0: Sched) returns (s: Sched)
    requires Reachable(p, s0) && Starting(p, s0) && p.numjobs >= 2
    ensures Reachable(p, s) && Over(p, s)
    ensures s.log == [Queue(0), Begin(0), End(0, Crashed), Queue(1), Begin(1), End(1, Success)]
  {
    hide Reachable, Over;
    Works(p, s0, 0, Crashed);
    var s1 := Worked(s0, 0, Crashed);
    assert [0, 1][1..] == [1] && [1][1..] == [] && {} + {0} == {0};
    Works(p, s1, 1, Success);
    var s2 := Worked(s1, 1, Success);
    Reports(p, s2, 0);
    assert {0} - {0} == {};
    s := Closes(p, s2.(failed := {}, stop := p.keep == 0, error := s2.error + [0], out := s2.out + [0]));
    assert s2.log == [] + [Queue(0), Begin(0), End(0, Crashed)] + [Queue(1), Begin(1), End(1, Success)];
  }

  lemma ChainStart(keep: nat, jobs: nat) returns (s: Sched)
    requires jobs >= 1
    ensures Reachable(ChainPlan(keep, jobs), s) && Starting(ChainPlan(keep, jobs), s)
  {
    ChainPlanValid(keep, jobs);
    ChainConstrained(keep, jobs);
    s := FirstHanded(ChainPlan(keep, jobs));
  }

  lemma FirstHanded(p: Plan) returns (s: Sched)
    requires p.All() == {0, 1} && p.groups == [[0, 1]]
             && Constrains(p, 0, map[0 := {}, 1 := {}], map[0 := {}, 1 := {0}])
    ensures Reachable(p, s) && s == StartSched(map[0 := {}, 1 := {0}]).(outstanding := [0, 1], cur := 1)
  {
    hide Reachable, Constrains;
    var ra: RunAfter := map[0 := {}, 1 := {}];
    assert ra.Keys == {0, 1};
    Starts(p, ra);
    Hands(p, StartSched(ra), map[0 := {}, 1 := {0}]);
    s := StartSched(map[0 := {}, 1 := {0}]).(outstanding := [0, 1], cur := 1);
    assert [] + [0, 1] == [0, 1];
  }

  // --- when a command can be given the output of a failed one

  ghost function Unsound(): seq<Event> {
    [Queue(0), Begin(0), End(0, Crashed), Queue(1), Begin(1), End(1, Success)]
  }

  lemma UnsoundIsUnsound()
    ensures !SoundRuns(Chain(), Unsound())
  {
    ChainWellFormed();
    var log := Unsound();
    assert log[..5] == [Queue(0), Begin(0), End(0, Crashed)] + [Queue(1)] + [Begin(1)];
    GoodAfter([Queue(0), Begin(0)], End(0, Crashed));
    assert [Queue(0), Begin(0)] + [End(0, Crashed)] == [Queue(0), Begin(0), End(0, Crashed)];
    GoodAfter([Queue(0), Begin(0), End(0, Crashed)], Queue(1));
    GoodAfter([Queue(0), Begin(0), End(0, Crashed)] + [Queue(1)], Begin(1));
    assert !Good(log[..5], 0);
    assert Feeds(Chain(), 0, 1) && log[5] == End(1, Success);
    assert !SoundRun(Chain(), log[..5], log[5]);
  }

  lemma ReachesUnsound(keep: nat, jobs: nat) returns (s: Sched)
    requires jobs >= 1 && !(keep == 0 && jobs == 1)
    ensures Reachable(ChainPlan(keep, jobs), s) && Over(ChainPlan(keep, jobs), s) && s.log == Unsound()
  {
    var s0 := ChainStart(keep, jobs);
    hide Reachable, Over, Starting;
    if keep > 0 {
      s := RunsBoth(ChainPlan(keep, jobs), s0, Crashed, Success);
    } else {
      s := RacesAhead(ChainPlan(keep, jobs), s0);
    }
  }

  /** The scheduler never runs a command on the output of a failed one exactly when it stops at the first error
      and has one job. */
  lemma SoundExactlyAlone(keep: nat, jobs: nat)
    requires jobs >= 1
    ensures keep == 0 && jobs == 1 <==>
      forall run: seq<Sched>, i :: Run(ChainPlan(keep, jobs), run) && 0 <= i < |run| ==> SoundRuns(Chain(), run[i].log)
  {
    hide Run, SoundRuns, Chain, ProducersInOrder;
    var p := ChainPlan(keep, jobs);
    ChainPlanValid(keep, jobs);
    ChainInOrder(keep, jobs);
    if keep == 0 && jobs == 1 {
      forall run: seq<Sched>, i | Run(p, run) && 0 <= i < |run|
        ensures SoundRuns(Chain(), run[i].log)
      {
        OneJobIsSound(p, run, Chain(), i);
      }
    } else {
      var s := ReachesUnsound(keep, jobs);
      UnsoundIsUnsound();
      var run := RunTo(p, s);
      assert !SoundRuns(Chain(), run[|run| - 1].log);
    }
  }

  // --- what the builds of the chain leave

  function Uid0(): Uid { Uid("p", [0, 1]) }
  function Uid1(): Uid { Uid("c", [1, 2]) }
  function Sig0(src: Content): Sig { TaskHash("p", [FileHash(src)], "p") }
  function Sig1(src: Content): Sig { TaskHash("c", [Sig0(src)], "c") }

  lemma Inputs0(s: Store)
    requires 0 in s.files
    ensures HasInputs(Chain(), s, 0) && TaskSig(Chain(), s, 0) == Sig0(s.files[0])
    ensures CanRead(s.files, [0]) && Written(CAT, Chain(), s.files, 0) == "p" + s.files[0]
  {
    ChainWellFormed();
    assert TaskSig(Chain(), s, 0).deps == [FileHash(s.files[0])];
    assert Contents(s.files, [0]) == [s.files[0]];
  }

  lemma Inputs1(s: Store, x: Content)
    requires 1 in s.nodeSig && s.nodeSig[1] == Sig0(x) && 1 in s.files
    ensures HasInputs(Chain(), s, 1) && TaskSig(Chain(), s, 1) == Sig1(x)
    ensures CanRead(s.files, [1]) && Written(CAT, Chain(), s.files, 1) == "c" + s.files[1]
    ensures 2 in s.files ==> (UpToDate(CAT, Chain(), s.files, 1) <==> s.files[2] == "c" + s.files[1])
  {
    ChainWellFormed();
    assert TaskSig(Chain(), s, 1).deps == [Sig0(x)];
    assert Contents(s.files, [1]) == [s.files[1]];
  }

  lemma Due0(b: Store) returns (s: Session)
    requires 0 in b.files && Stocked({1, 2}, b)
    ensures s == Session(Chain(), [], [Build(b, map[], map[])]) && Due(CAT, s, 0) && SoundRuns(Chain(), s.log)
    ensures StageOf(s.log, 1) == Idle && Now(s).store == b
  {
    ChainWellFormed();
    Inputs0(b);
    s := Begins(CAT, Chain(), b);
  }

  lemma Due1(s0: Session, s: Session, x: Content)
    requires Later(CAT, s0, s, 0) && s0.sc == Chain() && StageOf(s0.log, 1) == Idle && s.states != []
    requires 1 in Now(s).store.nodeSig && Now(s).store.nodeSig[1] == Sig0(x) && 1 in Now(s).store.files
    ensures Due(CAT, s, 1) && s.sc == Chain()
  {
    ChainWellFormed();
    Inputs1(Now(s).store, x);
  }

  /** Task 0 ends well on source `x`. */
  lemma Good0(b: Store, x: Content) returns (s0: Session, s: Session)
    requires 0 in b.files && b.files[0] == x && Stocked({1, 2}, b) && (Uid0() in b.sigs ==> b.sigs[Uid0()] != Sig0(x))
    ensures s0.states == [Build(b, map[], map[])] && Later(CAT, s0, s, 0) && s.states != [] && Due(CAT, s, 1)
            && s.sc == Chain()
    ensures s.log == [Queue(0), Begin(0), End(0, Success)] && Good(s.log, 0)
    ensures Now(s).store.sigs == b.sigs[Uid0() := Sig0(x)] && Now(s).store.files == b.files[1 := "p" + x]
    ensures 1 in Now(s).store.nodeSig && Now(s).store.nodeSig[1] == Sig0(x) && SameSig(b, Now(s).store, 2)
  {
    ChainWellFormed();
    Inputs0(b);
    s0 := Due0(b);
    hide Chain, Due, TaskSig, HasInputs, Later, Written, SoundRuns, Ran, Sig0, Stocked;
    s := RunStep(CAT, s0, 0);
    RanFacts(s0, s, 0);
    assert [] + [Queue(0), Begin(0), End(0, Success)] == [Queue(0), Begin(0), End(0, Success)];
    Due1(s0, s, x);
  }

  lemma RanFacts(s: Session, r: Session, t: Task)
    requires Due(CAT, s, t) && Ran(CAT, s, r, t)
    ensures Later(CAT, s, r, t) && Good(r.log, t) && r.log == s.log + [Queue(t), Begin(t), End(t, Success)]
            && r.states != [] && s.states != []
    ensures CanRead(Now(s).store.files, s.sc.Deps(t))
    ensures Now(r).store.sigs == Now(s).store.sigs[s.sc.UidOf(t) := TaskSig(s.sc, Now(s).store, t)]
    ensures Now(r).store.files == Now(s).store.files[s.sc.Out(t) := Written(CAT, s.sc, Now(s).store.files, t)]
    ensures SigsKept(s.sc.built, Now(s).store, Now(r).store, s.sc.Out(t))
    ensures s.sc.Out(t) in Now(r).store.nodeSig && Now(r).store.nodeSig[s.sc.Out(t)] == TaskSig(s.sc, Now(s).store, t)
    ensures forall m :: m in s.sc.built && m != s.sc.Out(t) ==> SameSig(Now(s).store, Now(r).store, m)
  {
    LaterStates(CAT, s, r, t);
    hide Going, TaskSig, HasInputs, Written, SoundRuns, Script.UidOf, Script.Out, Script.Deps;
  }

  /** What holds of every session below. */
  ghost predicate Ends(s: Session, b: Store, log: seq<Event>) {
    s.Valid(CAT) && s.sc == Chain() && s.log == log && |s.states| == |s.log| + 1 && s.Before() == b
  }

  lemma DoesEnd(s0: Session, s1: Session, s2: Session, b: Store, log: seq<Event>)
    requires s0.states == [Build(b, map[], map[])] && Later(CAT, s0, s1, 0) && Later(CAT, s1, s2, 1)
             && s1.sc == Chain() && s2.log == log
    ensures Ends(s2, b, log)
  {
    hide CachesWell, TasksSigned, Stocked, Session.Valid;
  }

  ghost function FailedLast(): seq<Event> {
    [Queue(0), Begin(0), End(0, Success), Queue(1), Begin(1), End(1, Crashed)]
  }

  ghost function SkippedLast(): seq<Event> {
    [Queue(0), Begin(0), End(0, Success), Skip(1)]
  }

  lemma LogsAre()
    ensures [Queue(0), Begin(0), End(0, Success)] + [Queue(1), Begin(1), End(1, Crashed)] == FailedLast()
    ensures [Queue(0), Begin(0), End(0, Crashed)] + [Queue(1), Begin(1), End(1, Success)] == Unsound()
    ensures [Queue(0), Begin(0), End(0, Success)] + [Skip(1)] == SkippedLast()
    ensures [] + [Queue(0), Begin(0), End(0, Crashed)] == [Queue(0), Begin(0), End(0, Crashed)]
  {
  }

  lemma TextsAre()
    ensures "p" + "a" == "pa" && "c" + "X" == "cX"
  {
  }

  lemma SigStays(built: set<Node>, a: Store, b: Store, n: Node, m: Node)
    requires SigsKept(built, a, b, n) && m in built && m != n
    ensures SameSig(a, b, m)
  {
  }

  /** A first build from source "a": task 0 ends well, task 1 fails. */
  lemma FirstSession(b: Store) returns (s: Session)
    requires b.sigs == map[] && b.nodeSig == map[] && 0 in b.files && b.files[0] == "a"
    ensures Ends(s, b, FailedLast())
    ensures Uid0() in s.After().sigs && s.After().sigs[Uid0()] == Sig0("a") && Uid1() !in s.After().sigs
    ensures 1 in s.After().files && 1 in s.After().nodeSig && s.After().nodeSig[1] == Sig0("a")
            && 2 !in s.After().nodeSig
  {
    ChainWellFormed();
    ChainBuilt();
    UidsApart();
    LogsAre();
    hide Chain, Due, TaskSig, HasInputs, Later, Sig0, Uid0, Uid1, SoundRuns, Ends, FailedLast, SigsKept, Script.UidOf,
         Script.Out;
    var s0, s1 := Good0(b, "a");
    Inputs1(Now(s1).store, "a");
    s := FailStep(CAT, s1, 1, "");
    LaterStates(CAT, s1, s, 1);
    DoesEnd(s0, s1, s, b, FailedLast());
    SigStays({1, 2}, Now(s1).store, Now(s).store, 2, 1);
  }

  lemma UidsApart()
    ensures Uid0() != Uid1() && Chain().UidOf(0) == Uid0() && Chain().UidOf(1) == Uid1()
  {
    ChainWellFormed();
    assert Uid0().name == "p" && Uid1().name == "c";
  }

  lemma SigsApart()
    ensures Sig0("a") != Sig0("b")
  {
    assert Sig0("a").deps[0] == FileHash("a") && Sig0("b").deps[0] == FileHash("b");
    assert "a"[0] != "b"[0];
  }

  /** Then, from source "b": task 0 fails and leaves "X", and task 1 is run on that, with the signature of file 1
      as the first build left it. */
  lemma SecondSession(b: Store) returns (s: Session)
    requires Uid0() in b.sigs && b.sigs[Uid0()] == Sig0("a") && Uid1() !in b.sigs
    requires 0 in b.files && b.files[0] == "b" && 1 in b.files
    requires 1 in b.nodeSig && b.nodeSig[1] == Sig0("a") && 2 !in b.nodeSig
    ensures Ends(s, b, Unsound())
    ensures Uid0() !in s.After().sigs && Uid1() in s.After().sigs && s.After().sigs[Uid1()] == Sig1("a")
    ensures 1 in s.After().files && 2 in s.After().files && s.After().files[2] == "cX"
    ensures 1 in s.After().nodeSig && s.After().nodeSig[1] == Sig0("a") && 2 in s.After().nodeSig
            && s.After().nodeSig[2] == Sig1("a")
  {
    ChainWellFormed();
    UidsApart();
    SigsApart();
    Inputs0(b);
    LogsAre();
    TextsAre();
    var s0 := Due0(b);
    hide Chain, Due, TaskSig, HasInputs, Later, Sig0, Sig1, Uid0, Uid1, SoundRuns, Ends, Ran, Written, Unsound,
         SigsKept, Script.UidOf, Script.Out;
    var s1 := FailStep(CAT, s0, 0, "X");
    LaterStates(CAT, s0, s1, 0);
    SigStays({1, 2}, Now(s0).store, Now(s1).store, 1, 2);
    Due1(s0, s1, "a");
    Inputs1(Now(s1).store, "a");
    s := RunStep(CAT, s1, 1);
    RanFacts(s1, s, 1);
    DoesEnd(s0, s1, s, b, Unsound());
  }

  ghost predicate NotWritten(files: map<Node, Content>) {
    1 in files && files[1] == "pa" && 2 in files && files[2] == "cX"
  }

  /** Last, from source "a" again: task 0 ends well, and gives file 1 the signature of the first build; task 1 is
      skipped. */
  lemma ThirdSession(b: Store) returns (s: Session)
    requires Uid0() !in b.sigs && Uid1() in b.sigs && b.sigs[Uid1()] == Sig1("a")
    requires 0 in b.files && b.files[0] == "a" && 1 in b.files && 2 in b.files && b.files[2] == "cX"
    requires 1 in b.nodeSig && 2 in b.nodeSig && b.nodeSig[2] == Sig1("a")
    ensures Ends(s, b, SkippedLast()) && s.ErrorFree() && NotWritten(s.After().files)
  {
    ChainWellFormed();
    UidsApart();
    LogsAre();
    TextsAre();
    hide Chain, Due, TaskSig, HasInputs, Later, Sig0, Sig1, Uid0, Uid1, SoundRuns, Ends, Written, SkippedLast,
         SigsKept, Script.UidOf, Script.Out;
    var s0, s1 := Good0(b, "a");
    Inputs1(Now(s1).store, "a");
    s := SkipStep(CAT, s1, 1);
    LaterStates(CAT, s1, s, 1);
    DoesEnd(s0, s1, s, b, SkippedLast());
    StillGood(s1, s);
  }

  lemma StillGood(s: Session, r: Session)
    requires Later(CAT, s, r, 1) && Good(s.log, 0) && Good(r.log, 1) && r.sc == Chain()
    ensures r.ErrorFree()
  {
  }

  // --- whole histories

  ghost predicate Scheduled(p: Plan, log: seq<Event>) {
    exists s :: Reachable(p, s) && Over(p, s) && s.log == log
  }

  /** Builds of the chain, each as the scheduler runs it with these settings. */
  ghost predicate ChainBuilds(keep: nat, jobs: nat, h: seq<Session>) {
    Builds(CAT, h) && forall i :: 0 <= i < |h| ==> h[i].sc == Chain() && Scheduled(ChainPlan(keep, jobs), h[i].log)
  }

  ghost predicate StaleEnd(h: seq<Session>) {
    h != [] && var s := h[|h| - 1];
      s.ErrorFree() && s.states != [] && exists t :: t in s.sc.info && !UpToDate(CAT, s.sc, s.After().files, t)
  }

  lemma AllScheduled(keep: nat, jobs: nat)
    requires jobs >= 1 && !(keep == 0 && jobs == 1)
    ensures Scheduled(ChainPlan(keep, jobs), FailedLast()) && Scheduled(ChainPlan(keep, jobs), Unsound())
    ensures Scheduled(ChainPlan(keep, jobs), SkippedLast())
  {
    hide Reachable, Over, Starting;
    var s0 := ChainStart(keep, jobs);
    var s1 := RunsBoth(ChainPlan(keep, jobs), s0, Success, Crashed);
    var s2 := ReachesUnsound(keep, jobs);
    var s3 := SkipsSecond(ChainPlan(keep, jobs), s0);
  }

  lemma SourceEdited(built: set<Node>, s: Store, n: Node, c: Content)
    requires n !in built
    ensures Edited(built, s, s.(files := s.files[n := c]))
  {
    forall m | m in built
      ensures SameFile(s.files, s.files[n := c], m)
    {
    }
  }

  /** Otherwise three builds of the chain end without an error, and with a stale file. */
  lemma ChainGoesStale(keep: nat, jobs: nat)
    requires jobs >= 1 && !(keep == 0 && jobs == 1)
    ensures exists h :: ChainBuilds(keep, jobs, h) && StaleEnd(h)
  {
    AllScheduled(keep, jobs);
    hide *;
    var s1, s2, s3 := ThreeSessions();
    Assemble(keep, jobs, s1, s2, s3);
  }

  lemma ThreeSessions() returns (s1: Session, s2: Session, s3: Session)
    ensures s1.states != [] && Ends(s1, s1.Before(), FailedLast()) && s1.Before().sigs == map[]
    ensures s2.states != [] && Ends(s2, s2.Before(), Unsound()) && s3.states != []
            && Ends(s3, s3.Before(), SkippedLast())
    ensures Edited({1, 2}, s1.After(), s2.Before()) && Edited({1, 2}, s2.After(), s3.Before())
    ensures s3.ErrorFree() && !UpToDate(CAT, Chain(), s3.After().files, 1)
  {
    hide Chain, SoundRuns, Sig0, Sig1, Uid0, Uid1, UpToDate, FailedLast, SkippedLast, Unsound, Edited, Session.Valid,
         Session.ErrorFree, NotWritten;
    s1 := FirstSession(Store(map[], map[], map[0 := "a"]));
    SourceEdited({1, 2}, s1.After(), 0, "b");
    s2 := SecondSession(s1.After().(files := s1.After().files[0 := "b"]));
    SourceEdited({1, 2}, s2.After(), 0, "a");
    s3 := ThirdSession(s2.After().(files := s2.After().files[0 := "a"]));
    EndsStale(s3, s3.Before());
  }

  lemma EndsStale(s: Session, b: Store)
    requires Ends(s, b, SkippedLast()) && NotWritten(s.After().files)
    ensures !UpToDate(CAT, Chain(), s.After().files, 1)
  {
    ChainWellFormed();
    assert Contents(s.After().files, [1]) == ["pa"];
    assert ("c" + "pa")[1] == 'p' && "cX"[1] == 'X';
  }

  lemma Assemble(keep: nat, jobs: nat, s1: Session, s2: Session, s3: Session)
    requires s1.states != [] && Ends(s1, s1.Before(), FailedLast()) && s1.Before().sigs == map[]
    requires s2.states != [] && Ends(s2, s2.Before(), Unsound()) && s3.states != []
             && Ends(s3, s3.Before(), SkippedLast())
    requires Edited({1, 2}, s1.After(), s2.Before()) && Edited({1, 2}, s2.After(), s3.Before())
    requires Scheduled(ChainPlan(keep, jobs), FailedLast()) && Scheduled(ChainPlan(keep, jobs), Unsound())
             && Scheduled(ChainPlan(keep, jobs), SkippedLast())
    requires s3.ErrorFree() && !UpToDate(CAT, Chain(), s3.After().files, 1)
    ensures ChainBuilds(keep, jobs, [s1, s2, s3]) && StaleEnd([s1, s2, s3])
  {
    ChainWellFormed();
    ChainBuilt();
    hide Chain, Scheduled, UpToDate, FailedLast, SkippedLast, Unsound, Edited, Session.Valid, Session.ErrorFree;
    BuildsThree(CAT, s1, s2, s3);
    hide Builds, Ends, ChainPlan;
    assert [s1, s2, s3][2] == s3;
    EachScheduled(keep, jobs, s1, s2, s3);
  }

  lemma ChainBuilt()
    ensures Chain().built == {1, 2}
  {
  }

  lemma EachScheduled(keep: nat, jobs: nat, s1: Session, s2: Session, s3: Session)
    requires s1.sc == s2.sc == s3.sc == Chain()
    requires Scheduled(ChainPlan(keep, jobs), s1.log) && Scheduled(ChainPlan(keep, jobs), s2.log)
             && Scheduled(ChainPlan(keep, jobs), s3.log)
    ensures forall i :: 0 <= i < 3 ==>
      [s1, s2, s3][i].sc == Chain() && Scheduled(ChainPlan(keep, jobs), [s1, s2, s3][i].log)
  {
    hide Chain, ChainPlan, Scheduled;
  }

  /** Every error-free build at the end of any history of the chain leaves every output up to date exactly when
      the builds stop at the first error and have one job. */
  lemma IncrementalExactlyAlone(keep: nat, jobs: nat)
    requires jobs >= 1
    ensures keep == 0 && jobs == 1 <==> forall h :: ChainBuilds(keep, jobs, h) ==> !StaleEnd(h)
  {
    if keep == 0 && jobs == 1 {
      forall h | ChainBuilds(keep, jobs, h)
        ensures !StaleEnd(h)
      {
        NeverStale(keep, jobs, h);
      }
    } else {
      hide ChainBuilds, StaleEnd;
      ChainGoesStale(keep, jobs);
    }
  }

  lemma NeverStale(keep: nat, jobs: nat, h: seq<Session>)
    requires keep == 0 && jobs == 1 && ChainBuilds(keep, jobs, h)
    ensures !StaleEnd(h)
  {
    hide Chain, SoundRuns, Reachable, Run, ProducersInOrder, UpToDate, Builds, ChainPlan, Over, Session.ErrorFree;
    ChainPlanValid(keep, jobs);
    ChainInOrder(keep, jobs);
    forall i | 0 <= i < |h|
      ensures SoundRuns(h[i].sc, h[i].log)
    {
      assert Scheduled(ChainPlan(keep, jobs), h[i].log);
      var s :| Reachable(ChainPlan(keep, jobs), s) && Over(ChainPlan(keep, jobs), s) && s.log == h[i].log;
      var run := RunTo(ChainPlan(keep, jobs), s);
      PlanAlone(keep, jobs);
      OneJobIsSound(ChainPlan(keep, jobs), run, Chain(), |run| - 1);
    }
    NeverReturns(h);
    if StaleEnd(h) {
      AllUpToDate(CAT, h, h[|h| - 1]);
      assert false;
    }
  }

  lemma PlanAlone(keep: nat, jobs: nat)
    ensures ChainPlan(keep, jobs).keep == keep && ChainPlan(keep, jobs).numjobs == jobs
  {
  }

  lemma NeverReturns(h: seq<Session>)
    requires forall i :: 0 <= i < |h| ==> h[i].sc == Chain()
    ensures NoReturn(h)
  {
    ChainWellFormed();
    hide Chain, Script.Valid;
    forall i, j, k | 0 <= i < j < k < |h|
      ensures !Returns(h[i].sc, h[j].sc, h[k].sc)
    {
      forall n, u, v | Under(Chain(), n, u) && Under(Chain(), n, v)
        ensures u == v
      {
        UidUnique(Chain(), n, u, v);
      }
    }
  }
}
