/** How builds of any plan come to their end: with `keep` at 2 or more, a task with `more_tasks` whose status
    raises loses them in some build, and no build is complete that loses a task. */
module Ends {
  import opened Basics
  import opened Graphs
  import opened TaskOrder
  import opened Schedule
  import opened ScheduleProofs
  import opened Deadlock
  import opened Reach
  import opened Runs

  /** What a task waits for by the files and classes of its group alone. */
  ghost function OwnOf(p: Plan, t: Task): set<Task> {
    set q | q in p.All() && Precedes(p, q, t)
  }

  ghost function Own(p: Plan): RunAfter {
    map t | t in p.All() :: OwnOf(p, t)
  }

  /** Nothing is in flight or in hand. */
  ghost predicate Quiet(s: Sched) {
    && s.ready == [] && s.fetched == {} && s.running == {} && s.failed == {} && s.stopping == {} && s.returning == {}
    && s.out == [] && s.current == [] && s.count == 0 && !s.stop
  }

  /** A build in which nothing waits but by files and classes, and the status of `x` raises. */
  ghost predicate Fated(p: Plan, s: Sched, x: Task) {
    && s.runAfter.Keys == p.All() && (forall t :: t in s.runAfter ==> s.runAfter[t] <= OwnOf(p, t))
    && (x in s.hasrun ==> x in s.broken)
  }

  lemma QuietFree(p: Plan, s: Sched)
    requires Quiet(s)
    ensures Free(p, s)
  {
  }

  lemma FirstFresh(p: Plan, s: Sched)
    requires Inv(p, s) && s.outstanding != []
    ensures s.outstanding[0] !in s.hasrun && s.outstanding[0] in p.All() && s.outstanding[0] in p.more
  {
    hide Counted, Ordered, Logged, Constrained, Barrier, Cleared, Stalled;
    OnePlace(p, s, s.outstanding[0]);
  }

  lemma OneFewer(all: set<Task>, a: map<Task, Status>, b: map<Task, Status>, t: Task)
    requires t in all && t !in a && b.Keys == a.Keys + {t}
    ensures |all - b.Keys| < |all - a.Keys|
  {
    assert all - a.Keys == (all - b.Keys) + {t};
  }

  /** What is decided about `t`: it is skipped, but for `x`, whose status raises. */
  ghost function Decided(p: Plan, c: Sched, t: Task, x: Task): Sched
    requires c.current == [t] && t in p.more
  {
    if t == x then Break(p, c, true) else SkipTask(p, c)
  }

  lemma DecidedStep(p: Plan, c: Sched, t: Task, x: Task)
    requires c.current == [t] && t in p.more && c.Chosen()
    ensures MainStep(p, c, Decided(p, c, t, x))
  {
    hide Dispatch, Postpone, TakeFrozen, RetryFrozen, TakeGroup, GetOut;
  }

  lemma DecidedIs(p: Plan, c: Sched, t: Task, x: Task)
    requires c.current == [t] && t in p.more && p.keep >= 2 && !c.stop
    ensures var r := Decided(p, c, t, x);
      && r.hasrun.Keys == c.hasrun.Keys + {t} && r.runAfter == c.runAfter && r.current == [] && !r.stop
      && r.ready == c.ready && r.fetched == c.fetched && r.running == c.running && r.failed == c.failed
      && r.stopping == c.stopping && r.returning == c.returning && r.out == c.out && r.count == c.count
      && r.broken == if t == x then c.broken + {t} else c.broken
  {
  }

  lemma DecidedFated(p: Plan, s: Sched, c: Sched, t: Task, x: Task)
    requires Quiet(s) && Fated(p, s, x) && p.keep >= 2 && t in p.more && t in p.All() && t !in s.hasrun
             && s.outstanding != []
    requires c == s.(current := [t], cleared := true, outstanding := s.outstanding[1..])
    ensures Quiet(Decided(p, c, t, x)) && Fated(p, Decided(p, c, t, x), x)
    ensures |p.All() - Decided(p, c, t, x).hasrun.Keys| < |p.All() - s.hasrun.Keys|
  {
    DecidedIs(p, c, t, x);
    hide OwnOf, Decided;
    OneFewer(p.All(), s.hasrun, Decided(p, c, t, x).hasrun, t);
  }

  /** The next task is decided on. */
  lemma Decides(p: Plan, s: Sched, x: Task) returns (r: Sched)
    requires p.Valid() && Reachable(p, s) && Quiet(s) && Fated(p, s, x) && p.keep >= 2 && s.outstanding != []
    requires s.outstanding[0] in s.runAfter && s.runAfter[s.outstanding[0]] <= s.hasrun.Keys
    ensures Reachable(p, r) && Quiet(r) && Fated(p, r, x) && |p.All() - r.hasrun.Keys| < |p.All() - s.hasrun.Keys|
  {
    hide *;
    ReachableInv(p, s);
    FirstFresh(p, s);
    QuietFree(p, s);
    NoneInHand(s);
    var t := s.outstanding[0];
    var c := s.(current := [t], cleared := true, outstanding := s.outstanding[1..]);
    Takes(p, s);
    NowChosen(c, t);
    DecidedStep(p, c, t, x);
    r := Decided(p, c, t, x);
    SameFree(p, s, c);
    Mains(p, c, r);
    DecidedFated(p, s, c, t, x);
  }

  lemma NoneInHand(s: Sched)
    requires Quiet(s)
    ensures s.current == [] && !s.stop
  {
  }

  lemma NowChosen(c: Sched, t: Task)
    requires c.current == [t] && c.cleared && t in c.runAfter && c.runAfter[t] <= c.hasrun.Keys
    ensures c.Chosen()
  {
  }

  lemma SameFree(p: Plan, s: Sched, c: Sched)
    requires Free(p, s) && c.ready == s.ready && c.fetched == s.fetched && c.running == s.running
             && c.failed == s.failed
    requires c.stopping == s.stopping && c.returning == s.returning
    ensures Free(p, c)
  {
  }

  /** The constraints put on the group that comes next. */
  ghost function Put(p: Plan, s: Sched): RunAfter
    requires s.cur < |p.groups|
  {
    map t | t in s.runAfter :: s.runAfter[t] + (if t in p.groups[s.cur] then OwnOf(p, t) else {})
  }

  lemma OwnInGroup(p: Plan, i: nat, q: Task, t: Task)
    requires p.Valid() && i < |p.groups| && t in p.groups[i] && Precedes(p, q, t)
    ensures q in p.groups[i]
  {
    GroupListedOnce(p, i);
    assert p.Lists(q, p.origin[q]);
  }

  lemma InItsGroup(p: Plan, q: Task, t: Task)
    requires p.Valid() && Precedes(p, q, t)
    ensures t in p.origin && p.origin[t].InGroup? && p.origin[t].group < |p.groups| && t in p.groups[p.origin[t].group]
    ensures q in p.All() && t in p.All()
  {
    assert p.Lists(t, p.origin[t]);
  }

  lemma PutConstrains(p: Plan, s: Sched)
    requires p.Valid() && s.cur < |p.groups| && s.runAfter.Keys == p.All()
    ensures Constrains(p, s.cur, s.runAfter, Put(p, s))
  {
    hide Plan.Valid, Precedes;
    var r := Put(p, s);
    forall t | t in r && t in p.groups[s.cur]
      ensures r[t] <= s.runAfter[t] + Elements(p.groups[s.cur])
    {
      forall q | q in OwnOf(p, t)
        ensures q in p.groups[s.cur]
      {
        OwnInGroup(p, s.cur, q, t);
      }
    }
    forall q, t | Precedes(p, q, t)
      ensures t in p.origin && p.origin[t].InGroup? && (p.origin[t].group == s.cur ==> t in r && q in r[t])
    {
      InItsGroup(p, q, t);
    }
  }

  lemma TakesNext(p: Plan, s: Sched, x: Task) returns (r: Sched)
    requires p.Valid() && Reachable(p, s) && Quiet(s) && Fated(p, s, x)
    requires s.outstanding == [] && s.frozen == [] && s.cur < |p.groups|
    ensures Reachable(p, r) && Quiet(r) && Fated(p, r, x) && r.cur == s.cur + 1 && r.hasrun == s.hasrun
  {
    PutConstrains(p, s);
    QuietFree(p, s);
    hide Reachable, Constrains, Plan.Valid, Fated, Put;
    Hands(p, s, Put(p, s));
    r := s.(outstanding := s.outstanding + p.groups[s.cur], cur := s.cur + 1, runAfter := Put(p, s));
    PutFated(p, s, r, x);
  }

  lemma PutFated(p: Plan, s: Sched, r: Sched, x: Task)
    requires s.cur < |p.groups| && Fated(p, s, x) && r.runAfter == Put(p, s) && r.hasrun == s.hasrun
             && r.broken == s.broken
    ensures Fated(p, r, x)
  {
    hide OwnOf;
  }

  lemma OwnKnown(p: Plan, s: Sched, x: Task)
    requires p.Valid() && Fated(p, s, x)
    ensures Known(p, s.runAfter)
  {
    forall t, q | t in s.runAfter && q in s.runAfter[t]
      ensures NotLater(p, q, t)
    {
      assert q in OwnOf(p, t);
    }
  }

  /** A task of a group is never lost, and neither is what a task that is not lost comes from. */
  lemma OwnLives(p: Plan, s: Sched, x: Task)
    requires p.Valid() && Fated(p, s, x)
    ensures !WaitsForLost(p, s)
  {
    forall t, q | Edge(Waits(p, s.runAfter), t, q) && t in Live(p, s)
      ensures q in Live(p, s)
    {
      if q in s.runAfter[t] {
        assert q in OwnOf(p, t);
      } else {
        assert p.Lists(t, p.origin[t]);
      }
    }
  }

  lemma OwnEdges(p: Plan, s: Sched, x: Task)
    requires Fated(p, s, x)
    ensures forall t, q :: Edge(Waits(p, s.runAfter), t, q) ==> Edge(Waits(p, Own(p)), t, q)
  {
    hide OwnOf;
  }

  /** A build whose files and classes ask for no circle does not get stuck. */
  lemma NeverStuck(p: Plan, s: Sched, x: Task)
    requires Inv(p, s) && Fated(p, s, x) && !Cyclic(Waits(p, Own(p)), p.All()) && !s.stop
    ensures !Stuck(s)
  {
    PlanValid(p, s);
    hide Inv, Cyclic, Waits, Known, WaitsForLost, Own, Fated, Plan.Valid, Stuck;
    if Stuck(s) {
      OwnKnown(p, s, x);
      OwnLives(p, s, x);
      OwnEdges(p, s, x);
      StuckHasCycle(p, s);
      InAll(p, s);
      CyclicGrows(Waits(p, s.runAfter), Unfinished(p, s) * Live(p, s), Waits(p, Own(p)), p.All());
    }
  }

  lemma InAll(p: Plan, s: Sched)
    requires p.Valid()
    ensures Unfinished(p, s) * Live(p, s) <= p.All()
  {
  }

  lemma StalledStuck(p: Plan, s: Sched)
    requires Inv(p, s) && Quiet(s) && s.outstanding == [] && s.frozen != [] && s.deadlock == Some(s.processed)
    ensures Stuck(s)
  {
    hide Placed, Counted, Reported, Ordered, Logged, Constrained, Barrier, Cleared;
  }

  ghost function Chances(s: Sched): nat {
    if s.deadlock == Some(s.processed) then 0 else 1
  }

  /** From any such state the build can go on to its end. */
  lemma {:induction false} ToTheEnd(p: Plan, s: Sched, x: Task) returns (r: Sched)
    requires p.Valid() && Reachable(p, s) && Quiet(s) && Fated(p, s, x) && p.keep >= 2
    requires !Cyclic(Waits(p, Own(p)), p.All()) && s.cur <= |p.groups|
    ensures Reachable(p, r) && Finished(p, r) && Fated(p, r, x) && !r.stop
    decreases |p.All() - s.hasrun.Keys|, |p.groups| - s.cur, Chances(s), |s.outstanding|
  {
    hide Reachable, Inv, Plan.Valid, OwnOf, Own, Cyclic, Waits, Stuck;
    ReachableInv(p, s);
    QuietFree(p, s);
    if s.outstanding != [] {
      var t := s.outstanding[0];
      FirstFresh(p, s);
      if s.runAfter[t] <= s.hasrun.Keys {
        var d := Decides(p, s, x);
        CurInGroups(p, d);
        r := ToTheEnd(p, d, x);
      } else {
        assert s.Blocked(t);
        PutsOff(p, s);
        r := ToTheEnd(p, s.(outstanding := s.outstanding[1..], cleared := true, frozen := s.frozen + [t]), x);
      }
    } else if s.frozen != [] {
      if s.deadlock == Some(s.processed) {
        StalledStuck(p, s);
        NeverStuck(p, s, x);
        assert false;
      } else {
        Mains(p, s, RetryFrozen(s));
        r := ToTheEnd(p, RetryFrozen(s), x);
      }
    } else if s.cur < |p.groups| {
      var u := TakesNext(p, s, x);
      r := ToTheEnd(p, u, x);
    } else {
      r := s;
    }
  }

  lemma CurInGroups(p: Plan, s: Sched)
    requires p.Valid() && Reachable(p, s)
    ensures s.cur <= |p.groups|
  {
    ReachableInv(p, s);
  }

  lemma StartsFated(p: Plan, x: Task) returns (s: Sched)
    requires p.Valid()
    ensures Reachable(p, s) && Quiet(s) && Fated(p, s, x) && s.cur == 0
  {
    var ra := map t | t in p.All() :: {};
    hide Reachable;
    Starts(p, ra);
    s := StartSched(ra);
  }

  lemma BrokenNone(p: Plan, s: Sched)
    requires Inv(p, s) && !s.stop && p.keep < 2
    ensures NothingLost(p, s)
  {
    hide Placed, Counted, Ordered, Logged, Constrained, Barrier, Cleared, Stalled;
  }

  /** The status of `x`, which has `more_tasks`, raises or is never come to. */
  lemma Loses(p: Plan, s: Sched, x: Task)
    requires Inv(p, s) && !s.stop && Finished(p, s) && Fated(p, s, x) && x in p.more && p.more[x] != []
    ensures s.hasrun.Keys != p.All()
  {
    hide Placed, Counted, Reported, Ordered, Logged, Constrained, Barrier, Cleared, Stalled, OwnOf;
    CompleteIffNothingLost(p, s);
  }

  /** On a circle, a lost task is waited for by a lost task it has spawned. */
  lemma {:induction false} LostBack(p: Plan, s: Sched, w: seq<Task>, i: nat, j: nat)
    requires p.Valid() && CycleIn(Waits(p, Own(p)), p.All(), w) && i <= j < |w| && Lost(p, s, w[j])
    ensures Lost(p, s, w[i]) && p.depth[w[i]] >= p.depth[w[j]] + (j - i)
    decreases j - i
  {
    if i < j {
      assert Edge(Waits(p, Own(p)), w[j - 1], w[j - 1 + 1]);
      LostStep(p, s, w[j - 1], w[j]);
      LostBack(p, s, w, i, j - 1);
    }
  }

  lemma LostStep(p: Plan, s: Sched, t: Task, q: Task)
    requires p.Valid() && Lost(p, s, q) && Edge(Waits(p, Own(p)), t, q)
    ensures Lost(p, s, t) && p.depth[q] < p.depth[t]
  {
    SpawnedNotOwn(p, t, q);
    SpawnEdge(p, t, q);
    hide Waits, Own, OwnOf, Plan.Lists;
  }

  lemma SpawnedNotOwn(p: Plan, t: Task, q: Task)
    requires q in p.origin && p.origin[q].SpawnedBy?
    ensures q !in OwnOf(p, t)
  {
  }

  lemma SpawnEdge(p: Plan, t: Task, q: Task)
    requires Edge(Waits(p, Own(p)), t, q) && q !in OwnOf(p, t)
    ensures t in p.origin && p.origin[t].SpawnedBy? && p.origin[t].parent == q
  {
    hide OwnOf;
  }

  lemma CircleLives(p: Plan, s: Sched, w: seq<Task>)
    requires p.Valid() && CycleIn(Waits(p, Own(p)), p.All(), w)
    ensures Within(w, Live(p, s))
  {
    hide Waits, Own, Lost, Plan.Valid;
    forall k | 0 <= k < |w|
      ensures w[k] in Live(p, s)
    {
      if Lost(p, s, w[k]) {
        LostBack(p, s, w, 0, k);
        LostBack(p, s, w, 0, |w| - 1);
        assert false;
      }
    }
  }

  lemma AllPut(p: Plan, s: Sched)
    requires p.Valid() && Constrained(p, s) && s.cur == |p.groups| && s.runAfter.Keys == p.All()
    ensures forall t, q :: Edge(Waits(p, Own(p)), t, q) ==> Edge(Waits(p, s.runAfter), t, q)
  {
    hide Precedes, Plan.Valid;
    forall t, q | t in p.All() && q in OwnOf(p, t)
      ensures q in s.runAfter[t]
    {
      InItsGroup(p, q, t);
    }
  }

  /** When files and classes ask for a circle, no build comes to its end. */
  lemma CircleNeverEnds(p: Plan, s: Sched)
    requires Inv(p, s) && !s.stop && Finished(p, s)
    ensures !Cyclic(Waits(p, Own(p)), p.All())
  {
    EndIsComplete(p, s);
    assert p.Valid() && Constrained(p, s) && s.runAfter.Keys == p.All() && s.cur == |p.groups|;
    hide Inv, Waits, Own, Live, Plan.Valid, Constrained, Finished;
    AllPut(p, s);
    if w :| CycleIn(Waits(p, Own(p)), p.All(), w) {
      CircleLives(p, s, w);
      CircleMoves(Waits(p, Own(p)), p.All(), Waits(p, s.runAfter), Live(p, s), w);
    }
  }

  lemma CircleMoves(g: Graph<Task>, a: set<Task>, h: Graph<Task>, b: set<Task>, w: seq<Task>)
    requires CycleIn(g, a, w) && Within(w, b) && forall t, q :: Edge(g, t, q) ==> Edge(h, t, q)
    ensures Cyclic(h, b)
  {
    assert CycleIn(h, b, w);
  }

  /** Whatever the plan: every build of it that comes to its end without being stopped is complete exactly when
      `keep` is below 2, or no task has `more_tasks`, or files and classes ask for a circle, so that no build comes
      to its end. */
  lemma CompleteExactly(p: Plan)
    requires p.Valid()
    ensures p.keep < 2 || p.NoMore() || Cyclic(Waits(p, Own(p)), p.All()) <==>
      forall s :: Reachable(p, s) && Finished(p, s) && !s.stop ==> s.hasrun.Keys == p.All()
  {
    hide Reachable, Finished, Inv, Cyclic, Waits, Own, Fated, Plan.Valid, Plan.NoMore, Live, Known, WaitsForLost,
         NothingLost;
    if p.keep < 2 || p.NoMore() {
      forall s | Reachable(p, s) && Finished(p, s) && !s.stop
        ensures s.hasrun.Keys == p.All()
      {
        ReachableInv(p, s);
        NothingIsLost(p, s);
        CompleteIffNothingLost(p, s);
      }
    } else if Cyclic(Waits(p, Own(p)), p.All()) {
      forall s | Reachable(p, s) && Finished(p, s) && !s.stop
        ensures false
      {
        ReachableInv(p, s);
        CircleNeverEnds(p, s);
      }
    } else {
      var x := Spawner(p);
      var s := StartsFated(p, x);
      var r := ToTheEnd(p, s, x);
      ReachableInv(p, r);
      Loses(p, r, x);
    }
  }

  lemma Spawner(p: Plan) returns (x: Task)
    requires !p.NoMore()
    ensures x in p.more && p.more[x] != []
  {
    x :| x in p.more && p.more[x] != [];
  }
}
