/** Builds the scheduler can get into: runs of small plans, for any `keep` and any number of jobs, that show
    the conditions of the theorems about all runs to be needed. */
module Reach {
  import opened Basics
  import opened Graphs
  import opened TaskOrder
  import opened Schedule
  import opened ScheduleProofs
  import opened Deadlock
  import opened Runs

  // --- stretches of steps

  /** The next group is handed out. */
  lemma Hands(p: Plan, s: Sched, ra: RunAfter)
    requires Reachable(p, s) && Free(p, s) && s.frozen == [] && s.current == [] && s.count == 0 && OnlyMore(p, s)
    requires s.cur < |p.groups| && Constrains(p, s.cur, s.runAfter, ra)
    ensures Reachable(p, s.(outstanding := s.outstanding + p.groups[s.cur], cur := s.cur + 1, runAfter := ra))
  {
    hide Constrains, OnlyMore, Reachable, Free;
    var r := TakeGroup(p, s, s.cur, ra);
    assert HandsOut(p, s, s.cur, ra);
    Mains(p, s, r);
  }

  /** A build starts with its first group. */
  lemma StartsGroup(p: Plan, ra: RunAfter)
    requires ra.Keys == p.All() && p.groups != [] && Constrains(p, 0, ra, ra)
    ensures Reachable(p, StartSched(ra).(outstanding := p.groups[0], cur := 1))
  {
    hide Constrains, Reachable;
    Starts(p, ra);
    Hands(p, StartSched(ra), ra);
    assert [] + p.groups[0] == p.groups[0];
  }

  /** The next task is taken in hand, with `stop` unset. */
  lemma Takes(p: Plan, s: Sched)
    requires Reachable(p, s) && Free(p, s) && s.outstanding != [] && s.current == [] && !s.stop
    ensures Reachable(p, s.(current := [s.outstanding[0]], cleared := true, outstanding := s.outstanding[1..]))
  {
    hide Reachable;
    Mains(p, s, Pop(s));
    Mains(p, Pop(s), Clear(Pop(s)));
  }

  lemma Queues(p: Plan, s: Sched)
    requires Reachable(p, s) && Free(p, s) && s.outstanding != [] && s.current == [] && !s.stop
             && s.count <= p.numjobs * GAP
    requires s.outstanding[0] in s.runAfter && s.runAfter[s.outstanding[0]] <= s.hasrun.Keys
    ensures var t := s.outstanding[0];
      Reachable(p, s.(outstanding := s.outstanding[1..], cleared := true, ready := s.ready + [t], count := s.count + 1,
                      processed := s.processed + 1, log := s.log + [Queue(t)]))
  {
    hide Reachable;
    var r := s.(current := [s.outstanding[0]], cleared := true, outstanding := s.outstanding[1..]);
    Takes(p, s);
    Mains(p, r, Dispatch(r));
  }

  /** A task is put off. */
  lemma PutsOff(p: Plan, s: Sched)
    requires Reachable(p, s) && Free(p, s) && s.outstanding != [] && s.current == [] && !s.stop
             && s.Blocked(s.outstanding[0])
    ensures Reachable(p,
                      s.(outstanding := s.outstanding[1..], cleared := true, frozen := s.frozen + [s.outstanding[0]]))
  {
    hide Reachable;
    var t := s.outstanding[0];
    var r := s.(current := [t], cleared := true, outstanding := s.outstanding[1..]);
    Takes(p, s);
    assert r.Blocked(t);
    Mains(p, r, Postpone(r, false));
  }

  /** A task is queued, and run by a worker that is free; when it ends well it is handed back. */
  ghost function Worked(s: Sched, t: Task, st: Status): Sched
    requires s.outstanding != []
  {
    s.(outstanding := s.outstanding[1..], cleared := true, count := s.count + 1, processed := s.processed + 1,
       hasrun := s.hasrun[t := st], log := s.log + [Queue(t), Begin(t), End(t, st)],
       out := if st == Success then s.out + [t] else s.out,
       failed := if st == Success then s.failed else s.failed + {t})
  }

  lemma Works(p: Plan, s: Sched, t: Task, st: Status)
    requires Reachable(p, s) && Free(p, s) && s.outstanding != [] && s.outstanding[0] == t && s.current == [] && !s.stop
    requires t in s.runAfter && s.runAfter[t] <= s.hasrun.Keys && st != Skipped && s.count <= p.numjobs * GAP
    requires s.ready == [] && s.fetched == {} && s.running == {} && s.returning == {} && s.Workers() < p.numjobs
    ensures Reachable(p, Worked(s, t, st))
  {
    hide Reachable;
    Queues(p, s);
    var q := s.(outstanding := s.outstanding[1..], cleared := true, ready := [] + [t], count := s.count + 1,
                processed := s.processed + 1, log := s.log + [Queue(t)]);
    var f := q.(ready := [], fetched := {t});
    assert q.ready == [t] && q.ready[1..] == [] && {} + {t} == {t};
    assert f == Fetch(q) && q.Workers() == s.Workers();
    Workers(p, q, f);
    var e := f.(fetched := {}, running := {t}, log := f.log + [Begin(t)]);
    assert {t} - {t} == {};
    assert e == Enter(f, t);
    Workers(p, f, e);
    WorkEnds(p, s, e, t, st);
  }

  lemma WorkEnds(p: Plan, s: Sched, e: Sched, t: Task, st: Status)
    requires Reachable(p, e) && s.outstanding != [] && st != Skipped && s.running == {} && s.returning == {}
    requires e == s.(outstanding := s.outstanding[1..], cleared := true, count := s.count + 1,
                     processed := s.processed + 1, running := {t}, log := s.log + [Queue(t)] + [Begin(t)])
    ensures Reachable(p, Worked(s, t, st))
  {
    hide Reachable;
    assert {t} - {t} == {} && {} + {t} == {t};
    assert s.log + [Queue(t)] + [Begin(t)] + [End(t, st)] == s.log + [Queue(t), Begin(t), End(t, st)];
    var d := Finish(e, t, st);
    Workers(p, e, d);
    if st == Success {
      Workers(p, d, HandBack(d, t));
      assert HandBack(d, t) == Worked(s, t, st);
    } else {
      assert d == Worked(s, t, st);
    }
  }

  /** The error handler deals with a failed task, which is then handed back. */
  lemma Reports(p: Plan, s: Sched, t: Task)
    requires Reachable(p, s) && t in s.failed && t !in s.stopping && t !in s.returning
    ensures Reachable(p,
                      s.(failed := s.failed - {t}, stop := s.stop || p.keep == 0, error := s.error + [t],
                         out := s.out + [t]))
  {
    hide Reachable;
    var r := RaiseStop(p, s, t);
    Workers(p, s, r);
    assert r.stopping - {t} == s.stopping;
    var q := Report(r, t);
    Workers(p, r, q);
    assert q.returning - {t} == s.returning;
    Workers(p, q, HandBack(q, t));
  }

  /** An answer is collected. */
  ghost function Collected(p: Plan, s: Sched): Sched
    requires s.out != [] && s.out[0] in p.more
  {
    var t := s.out[0];
    s.(out := s.out[1..], retired := s.retired + [t], count := s.count - 1,
       outstanding := if s.stop then s.outstanding else s.outstanding + p.more[t],
       expanded := if s.stop then s.expanded else s.expanded + {t})
  }

  lemma Collecting(p: Plan, s: Sched)
    requires Reachable(p, s) && Free(p, s) && Collects(p, s)
    ensures Reachable(p, Collected(p, s))
  {
    hide Reachable;
    assert GetOut(p, s) == Collected(p, s);
    Mains(p, s, Collected(p, s));
  }

  // --- small plans

  /** A task that reads and writes nothing. */
  function Bare(): Info {
    Info([], [], [], Kind("bare", [], [], [], [], ""))
  }

  ghost predicate AllBare(p: Plan) {
    forall t :: t in p.info ==> p.info[t] == Bare()
  }

  lemma NothingConstrained(p: Plan, i: nat, ra: RunAfter)
    requires AllBare(p) && i < |p.groups|
    ensures Constrains(p, i, ra, ra)
  {
    hide Plan.Lists;
    assert Bare().inputs == Bare().depNodes == Bare().outputs == [];
    assert Bare().kind.after == Bare().kind.before == Bare().kind.extIn == [];
  }

  // --- a task that waits for a later group

  /** Two groups of one task each. */
  function TwoGroups(keep: nat, jobs: nat): Plan {
    Plan([[0], [1]], map[0 := [], 1 := []], map[0 := Bare(), 1 := Bare()],
         map[0 := InGroup(0, 0), 1 := InGroup(1, 0)], map[0 := 0, 1 := 1], map[0 := 0, 1 := 0], keep, jobs)
  }

  lemma TwoGroupsValid(keep: nat, jobs: nat)
    requires jobs >= 1
    ensures TwoGroups(keep, jobs).Valid() && TwoGroups(keep, jobs).All() == {0, 1}
    ensures Constrains(TwoGroups(keep, jobs), 0, map[0 := {1}, 1 := {}], map[0 := {1}, 1 := {}])
  {
    var p := TwoGroups(keep, jobs);
    hide Constrains, Plan.Lists;
    forall t, o
      ensures p.Lists(t, o) <==> t in p.origin && p.origin[t] == o
    {
      TwoGroupsLists(keep, jobs, t, o);
    }
    NothingConstrained(p, 0, map[0 := {1}, 1 := {}]);
  }

  lemma TwoGroupsLists(keep: nat, jobs: nat, t: Task, o: Origin)
    ensures var p := TwoGroups(keep, jobs); p.Lists(t, o) <==> t in p.origin && p.origin[t] == o
  {
  }

  lemma NoCircle(g: Graph<Task>, s: set<Task>)
    requires forall x, y :: Edge(g, x, y) ==> x == 0 && y == 1
    ensures !Cyclic(g, s)
  {
    forall w: seq<Task>
      ensures !CycleIn(g, s, w)
    {
      if |w| >= 2 && Walk(g, w) {
        assert Edge(g, w[0], w[0 + 1]) && Edge(g, w[|w| - 2], w[|w| - 2 + 1]);
      }
    }
  }

  ghost predicate StuckNoCircle(p: Plan, s: Sched) {
    Stuck(s) && !s.stop && s.deadlock == Some(s.processed) && !Cyclic(Waits(p, s.runAfter), p.All())
  }

  lemma WaitsLater(p: Plan, ra: RunAfter)
    requires ra == map[0 := {1}, 1 := {}] && forall t :: t in p.origin ==> p.origin[t].InGroup?
    ensures !Cyclic(Waits(p, ra), p.All())
  {
    NoCircle(Waits(p, ra), p.All());
  }

  /** A task made to wait for one of a later group: a deadlock, with nothing waiting in a circle. */
  lemma LaterGroupDeadlocks(keep: nat, jobs: nat)
    requires jobs >= 1
    ensures exists s :: Reachable(TwoGroups(keep, jobs), s) && StuckNoCircle(TwoGroups(keep, jobs), s)
  {
    var p, ra: RunAfter := TwoGroups(keep, jobs), map[0 := {1}, 1 := {}];
    TwoGroupsValid(keep, jobs);
    WaitsLater(p, ra);
    StartsGroup(p, ra);
    var s := StartSched(ra).(outstanding := [0], cur := 1);
    hide *;
    var r := GetsStuck(p, s);
  }

  lemma GetsStuck(p: Plan, s: Sched) returns (r: Sched)
    requires Reachable(p, s) && s.ready == [] && s.Busy() == {} && s.current == [] && s.count == 0 && !s.stop
    requires s.outstanding == [0] && s.frozen == [] && s.deadlock == None && 0 in s.runAfter && s.runAfter[0] == {1}
    requires s.hasrun == map[] && !Cyclic(Waits(p, s.runAfter), p.All())
    ensures Reachable(p, r) && StuckNoCircle(p, r)
  {
    hide Reachable, Cyclic, Waits;
    assert [0][1..] == [] && [] + [0] == [0];
    assert s.Blocked(0);
    PutsOff(p, s);
    var s1 := s.(outstanding := [], cleared := true, frozen := [0]);
    var s2 := s1.(deadlock := Some(s.processed), outstanding := [0], frozen := []);
    assert s2 == RetryFrozen(s1);
    Mains(p, s1, s2);
    assert s2.Blocked(0);
    PutsOff(p, s2);
    r := s2.(outstanding := [], cleared := true, frozen := [0]);
    assert r.Blocked(0);
  }

  // --- a stop that no error explains yet

  /** The main thread may find `stop` set, and be done, with no error on record. */
  ghost predicate Unexplained(p: Plan, s: Sched) {
    Reachable(p, s) && Free(p, s) && s.stop && s.error == [] && s.current == []
  }

  /** With `keep == 0` a build can stop, and be over for the main thread, before the failure is on record, exactly
      when it has more than one job. */
  lemma StopsUnexplained(jobs: nat)
    requires jobs >= 1
    ensures jobs > 1 <==> exists s :: Unexplained(TwoGroups(0, jobs), s)
  {
    var p, ra: RunAfter := TwoGroups(0, jobs), map[0 := {}, 1 := {}];
    TwoGroupsValid(0, jobs);
    if jobs > 1 {
      NothingConstrained(p, 0, ra);
      StartsGroup(p, ra);
      var s := StartSched(ra).(outstanding := [0], cur := 1);
      hide *;
      var r := Fails(p, s, ra);
    } else {
      forall s
        ensures !Unexplained(p, s)
      {
        if Reachable(p, s) {
          EveryBuildAccounts(p, s);
        }
      }
    }
  }

  lemma Fails(p: Plan, s: Sched, ra: RunAfter) returns (r: Sched)
    requires Reachable(p, s) && s == StartSched(ra).(outstanding := [0], cur := 1) && p.numjobs > 1 && p.keep == 0
    requires 0 in ra && ra[0] == {}
    ensures Unexplained(p, r)
  {
    hide Reachable;
    Works(p, s, 0, Crashed);
    var q := Worked(s, 0, Crashed);
    r := RaiseStop(p, q, 0);
    Workers(p, q, r);
  }

  // --- tasks added by the answers of a group

  /** Task 0 of the first group has task 1 in its `more_tasks`, which has task 3; task 2 is the second group. */
  function AddsMore(keep: nat, jobs: nat): Plan {
    Plan([[0], [2]], map[0 := [1], 1 := [3], 2 := [], 3 := []], map[0 := Bare(), 1 := Bare(), 2 := Bare(), 3 := Bare()],
         map[0 := InGroup(0, 0), 1 := SpawnedBy(0, 0), 2 := InGroup(1, 0), 3 := SpawnedBy(1, 0)],
         map[0 := 0, 1 := 0, 2 := 1, 3 := 0], map[0 := 0, 1 := 1, 2 := 0, 3 := 2], keep, jobs)
  }

  ghost function NoWaits(): RunAfter {
    map[0 := {}, 1 := {}, 2 := {}, 3 := {}]
  }

  lemma AddsMoreValid(keep: nat, jobs: nat)
    requires jobs >= 1
    ensures AddsMore(keep, jobs).Valid() && AddsMore(keep, jobs).All() == {0, 1, 2, 3}
    ensures forall i :: 0 <= i < 2 ==> Constrains(AddsMore(keep, jobs), i, NoWaits(), NoWaits())
  {
    var p := AddsMore(keep, jobs);
    AddsMoreKeys(keep, jobs);
    hide Constrains, Plan.Lists, AddsMore, NoWaits;
    forall t, o
      ensures p.Lists(t, o) <==> t in p.origin && p.origin[t] == o
    {
      AddsMoreLists(keep, jobs, t, o);
    }
    forall t | t in p.origin
      ensures p.origin[t].InGroup? ==> p.root[t] == p.origin[t].group
      ensures p.origin[t].SpawnedBy? ==>
        var q := p.origin[t].parent; q in p.origin && p.root[q] == p.root[t] && p.depth[q] < p.depth[t]
    {
      AddsMoreRoots(keep, jobs, t);
    }
    forall i | 0 <= i < 2
      ensures Constrains(p, i, NoWaits(), NoWaits())
    {
      NothingConstrained(p, i, NoWaits());
    }
  }

  lemma AddsMoreKeys(keep: nat, jobs: nat)
    ensures var p := AddsMore(keep, jobs);
      && p.more.Keys == p.info.Keys == p.root.Keys == p.depth.Keys == p.All() == {0, 1, 2, 3}
      && p.numjobs == jobs && AllBare(p) && |p.groups| == 2
  {
  }

  lemma AddsMoreRoots(keep: nat, jobs: nat, t: Task)
    requires t in AddsMore(keep, jobs).origin
    ensures var p := AddsMore(keep, jobs);
      && p.root.Keys == p.depth.Keys == p.origin.Keys
      && (p.origin[t].InGroup? ==> p.root[t] == p.origin[t].group)
      && (p.origin[t].SpawnedBy? ==>
           var q := p.origin[t].parent; q in p.origin && p.root[q] == p.root[t] && p.depth[q] < p.depth[t])
  {
  }

  lemma AddsMoreLists(keep: nat, jobs: nat, t: Task, o: Origin)
    ensures var p := AddsMore(keep, jobs); p.Lists(t, o) <==> t in p.origin && p.origin[t] == o
  {
  }

  /** With `more_tasks`, and any number of jobs, a task of the second group can be queued while one that belongs to
      the first has not run and is not even known. */
  lemma BarrierBreaks(keep: nat, jobs: nat)
    requires jobs >= 1
    ensures exists s ::
      Reachable(AddsMore(keep, jobs), s) && !s.stop && s.Gone(2) && BarrierBroken(AddsMore(keep, jobs), s)
  {
    var p, ra := AddsMore(keep, jobs), NoWaits();
    AddsMoreValid(keep, jobs);
    StartsGroup(p, ra);
    assert EarlierGroup(p, 3, 2) && Constrains(p, 1, ra, ra);
    var s := StartSched(ra).(outstanding := [0], cur := 1);
    hide *;
    var r := AddsOne(p, s, ra);
    Unknown(p, r);
  }

  ghost predicate BarrierBroken(p: Plan, s: Sched) {
    EarlierGroup(p, 3, 2) && 3 !in s.hasrun && 3 !in Taken(p, s)
  }

  lemma Unknown(p: Plan, s: Sched)
    requires EarlierGroup(p, 3, 2) && 3 in p.origin && p.origin[3] == SpawnedBy(1, 0) && 1 !in s.expanded
             && 3 !in s.hasrun
    ensures BarrierBroken(p, s)
  {
  }

  lemma AddsOne(p: Plan, s: Sched, ra: RunAfter) returns (r: Sched)
    requires Reachable(p, s) && s == StartSched(ra).(outstanding := [0], cur := 1)
    requires 0 in p.more && p.more[0] == [1] && |p.groups| == 2 && p.groups[1] == [2] && p.numjobs >= 1
    requires Constrains(p, 1, ra, ra) && 0 in ra && 1 in ra && 2 in ra && ra[0] == ra[1] == ra[2] == {}
    ensures Reachable(p, r) && !r.stop && r.Gone(2) && 1 !in r.expanded && 3 !in r.hasrun
  {
    hide Reachable, Constrains;
    assert [0][1..] == [] && [] + [1] == [1] && [] + [0] == [0] && {} + {0} == {0};
    Works(p, s, 0, Success);
    var q := Worked(s, 0, Success);
    Collecting(p, q);
    var c := q.(out := [], retired := [0], count := 0, outstanding := [1], expanded := {0});
    assert c == Collected(p, q);
    r := BarrierGone(p, c, ra);
  }

  lemma BarrierGone(p: Plan, s: Sched, ra: RunAfter) returns (r: Sched)
    requires Reachable(p, s) && s.ready == [] && s.Busy() == {} && s.out == [] && s.frozen == [] && s.current == []
             && s.count == 0
    requires !s.stop && s.runAfter == ra && s.outstanding == [1] && s.retired == [0] && 0 in p.more && p.more[0] == [1]
    requires s.cur == 1 && |p.groups| == 2 && p.groups[1] == [2] && p.numjobs >= 1 && 1 !in s.expanded && 3 !in s.hasrun
    requires Constrains(p, 1, ra, ra) && 1 in ra && 2 in ra && ra[1] == {} && ra[2] == {}
    ensures Reachable(p, r) && !r.stop && r.Gone(2) && 1 !in r.expanded && 3 !in r.hasrun
  {
    hide Reachable, Constrains;
    Hands(p, s, ra);
    var s1 := s.(outstanding := [1, 2], cur := 2);
    assert [1] + [2] == [1, 2] && [1, 2][1..] == [2] && [2][1..] == [];
    Works(p, s1, 1, Success);
    var s2 := Worked(s1, 1, Success);
    Queues(p, s2);
    r := s2.(outstanding := [], cleared := true, ready := s2.ready + [2], count := s2.count + 1,
             processed := s2.processed + 1, log := s2.log + [Queue(2)]);
    assert 2 in r.ready;
  }
}
