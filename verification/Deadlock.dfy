/** What the invariant of the scheduler says about a build that has stopped making progress, and about
    one that has come to its end. */
module Deadlock {
  import opened Basics
  import opened Graphs
  import opened TaskOrder
  import opened Schedule
  import opened ScheduleProofs

  /** No task waits for a task of a later group, or for one the build does not have. */
  ghost predicate Known(p: Plan, ra: RunAfter) {
    forall t, q :: t in ra && q in ra[t] ==> NotLater(p, q, t)
  }

  ghost predicate NotLater(p: Plan, q: Task, t: Task) {
    t in p.root && q in p.root && p.root[q] <= p.root[t]
  }

  /** Tasks whose `runnable_status` raised have no `more_tasks` that are now lost. */
  ghost predicate NothingLost(p: Plan, s: Sched) {
    forall t :: t in s.broken ==> t in p.more && p.more[t] == []
  }

  /** A task that will never come into being, because a task it comes from broke. */
  ghost predicate Lost(p: Plan, s: Sched, t: Task)
    requires p.Valid()
    decreases if t in p.depth then p.depth[t] else 0
  {
    && t in p.origin && p.origin[t].SpawnedBy?
    && (p.origin[t].parent in s.broken || Lost(p, s, p.origin[t].parent))
  }

  /** The tasks that can still be reached. */
  ghost function Live(p: Plan, s: Sched): set<Task>
    requires p.Valid()
  {
    set t | t in p.origin && !Lost(p, s, t)
  }

  /** A task that can be reached waits for one that cannot. */
  ghost predicate WaitsForLost(p: Plan, s: Sched)
    requires p.Valid()
  {
    exists t, q :: Edge(Waits(p, s.runAfter), t, q) && t in Live(p, s) && q !in Live(p, s)
  }

  /** Nothing in flight and nothing to look at but tasks that have to wait. */
  ghost predicate Stuck(s: Sched) {
    && s.count == 0 && s.outstanding == [] && s.current == [] && s.frozen != []
    && forall t :: t in s.frozen ==> s.Blocked(t)
  }

  /** Tasks of the groups handed out so far that have not run. */
  ghost function Unfinished(p: Plan, s: Sched): set<Task> {
    set t | t in p.root && p.root[t] < s.cur && t !in s.hasrun
  }

  lemma NothingInFlight(p: Plan, s: Sched)
    requires Counted(p, s) && s.count == 0
    ensures s.ready == [] && s.out == [] && s.Busy() == {}
  {
  }

  /** A task taken and not done is frozen, when nothing else is going on. */
  lemma UndoneIsFrozen(p: Plan, s: Sched, t: Task)
    requires Placed(p, s) && Counted(p, s) && Reported(p, s) && !s.stop
    requires s.count == 0 && s.outstanding == [] && s.current == []
    requires t in Taken(p, s) && t !in s.hasrun
    ensures t in s.frozen
  {
    NothingInFlight(p, s);
    OnePlace(p, s, t);
  }

  lemma FrozenIsUndone(p: Plan, s: Sched, t: Task)
    requires Placed(p, s) && Reported(p, s) && t in s.frozen
    ensures t in Taken(p, s) && t !in s.hasrun
  {
    OnePlace(p, s, t);
  }

  lemma {:induction false} TakenRoot(p: Plan, s: Sched, t: Task)
    requires p.Valid() && Reported(p, s) && t in Taken(p, s)
    requires forall x :: x in s.hasrun ==> x in Taken(p, s)
    ensures t in p.root && p.root[t] < s.cur
    decreases p.depth[t]
  {
    if p.origin[t].SpawnedBy? {
      TakenRoot(p, s, p.origin[t].parent);
    }
  }

  lemma BlockedWaits(p: Plan, s: Sched, t: Task)
    requires p.Valid() && Ordered(p, s) && Known(p, s.runAfter) && s.Blocked(t) && t in Unfinished(p, s)
    ensures Continues(Waits(p, s.runAfter), Unfinished(p, s), t)
  {
    hide Closed, Cyclic;
    var g := Waits(p, s.runAfter);
    var q :| q in s.runAfter[t] && q !in s.hasrun;
    assert Edge(g, t, q) && q in Unfinished(p, s);
  }

  lemma SpawnWaits(p: Plan, s: Sched, t: Task)
    requires p.Valid() && Counted(p, s) && Reported(p, s) && Ordered(p, s)
    requires s.count == 0 && !s.stop && t in Unfinished(p, s) && t !in Taken(p, s) && t in Live(p, s)
    ensures Continues(Waits(p, s.runAfter), Unfinished(p, s), t)
  {
    hide Closed, Cyclic;
    NothingInFlight(p, s);
    assert p.Lists(t, p.origin[t]);
    assert p.origin[t].SpawnedBy?;
    var q := p.origin[t].parent;
    assert q !in s.hasrun;
    assert Edge(Waits(p, s.runAfter), t, q) && q in Unfinished(p, s);
  }

  /** An unfinished task waits for another unfinished task. */
  lemma UnfinishedWaits(p: Plan, s: Sched, t: Task)
    requires p.Valid() && Placed(p, s) && Counted(p, s) && Reported(p, s) && Ordered(p, s)
    requires Stuck(s) && !s.stop && Known(p, s.runAfter) && !WaitsForLost(p, s)
    requires t in Unfinished(p, s) * Live(p, s)
    ensures Continues(Waits(p, s.runAfter), Unfinished(p, s) * Live(p, s), t)
  {
    hide Placed, Counted, Reported, Ordered, p.Valid, Known, Taken, Live, Waits;
    if t in Taken(p, s) {
      UndoneIsFrozen(p, s, t);
      BlockedWaits(p, s, t);
    } else {
      SpawnWaits(p, s, t);
    }
    var q :| q in Unfinished(p, s) && Edge(Waits(p, s.runAfter), t, q);
    assert q in Live(p, s);
  }

  /** What has been taken is not lost. */
  lemma {:induction false} TakenLives(p: Plan, s: Sched, t: Task)
    requires p.Valid() && Reported(p, s) && t in Taken(p, s)
    requires forall x :: x in s.hasrun ==> x in Taken(p, s)
    ensures t in Live(p, s)
    decreases p.depth[t]
  {
    if p.origin[t].SpawnedBy? {
      TakenLives(p, s, p.origin[t].parent);
    }
  }

  lemma FrozenUnfinished(p: Plan, s: Sched)
    requires p.Valid() && Placed(p, s) && Reported(p, s)
    ensures Elements(s.frozen) <= Unfinished(p, s) * Live(p, s)
  {
    hide Placed, Reported, p.Valid, Taken;
    HasrunGone(p, s);
    forall t | t in s.frozen
      ensures t in Unfinished(p, s) * Live(p, s)
    {
      FrozenIsUndone(p, s, t);
      TakenRoot(p, s, t);
      TakenLives(p, s, t);
    }
  }

  lemma UnfinishedFrozen(p: Plan, s: Sched)
    requires p.Valid() && Placed(p, s) && Counted(p, s) && Reported(p, s) && Stuck(s) && !s.stop && p.NoMore()
    ensures Unfinished(p, s) <= Elements(s.frozen)
  {
    hide Placed, Counted, Reported, Taken, Plan.NoMore;
    forall t | t in Unfinished(p, s)
      ensures t in s.frozen
    {
      RootTaken(p, s, t);
      UndoneIsFrozen(p, s, t);
    }
  }

  /** A deadlock is real: when every frozen task is blocked, some unfinished tasks wait for each other in a
      circle, or a task waits for one that was lost, of a later group or unknown to the build; without `more_tasks`
      the unfinished tasks are the frozen. */
  lemma StuckHasCycle(p: Plan, s: Sched)
    requires Inv(p, s) && Stuck(s) && !s.stop
    ensures !Known(p, s.runAfter) || WaitsForLost(p, s) || Cyclic(Waits(p, s.runAfter), Unfinished(p, s) * Live(p, s))
    ensures p.NoMore() ==> Unfinished(p, s) == Elements(s.frozen)
  {
    hide Placed, Counted, Reported, Ordered, Logged, Constrained, Barrier, Cleared, Stalled, p.Valid, Known,
         Plan.NoMore, Unfinished, Taken, Waits, Continues, Cyclic, Live, WaitsForLost;
    FrozenUnfinished(p, s);
    assert s.frozen[0] in Elements(s.frozen);
    if Known(p, s.runAfter) && !WaitsForLost(p, s) {
      forall t | t in Unfinished(p, s) * Live(p, s)
        ensures Continues(Waits(p, s.runAfter), Unfinished(p, s) * Live(p, s), t)
      {
        UnfinishedWaits(p, s, t);
      }
      SinkOrCycle(Waits(p, s.runAfter), Unfinished(p, s) * Live(p, s));
    }
    if p.NoMore() {
      UnfinishedFrozen(p, s);
    }
  }

  /** An unstopped build loses tasks only when it is told to keep going past errors, with `keep` at 2 or more. */
  lemma NothingIsLost(p: Plan, s: Sched)
    requires Inv(p, s) && !s.stop && (p.keep < 2 || p.NoMore())
    ensures NothingLost(p, s) && Live(p, s) == p.All() && (Known(p, s.runAfter) ==> !WaitsForLost(p, s))
  {
    hide Placed, Counted, Ordered, Logged, Constrained, Barrier, Cleared, Stalled, Taken, Live, Lost, Plan.Valid,
         Known, WaitsForLost;
    HasrunGone(p, s);
    TakenInPlan(p, s);
    BrokenHasMore(p, s);
    LostIff(p, s);
    if Known(p, s.runAfter) {
      KnownLives(p, s);
    }
  }

  lemma BrokenHasMore(p: Plan, s: Sched)
    requires p.Valid() && Reported(p, s) && !s.stop && (p.keep < 2 || p.NoMore())
    requires forall t :: t in s.hasrun ==> t in p.All()
    ensures NothingLost(p, s)
  {
  }

  lemma KnownLives(p: Plan, s: Sched)
    requires p.Valid() && Known(p, s.runAfter) && Live(p, s) == p.All()
    ensures !WaitsForLost(p, s)
  {
    forall t, q | Edge(Waits(p, s.runAfter), t, q)
      ensures q in p.All()
    {
      assert q in s.runAfter[t] ==> NotLater(p, q, t);
    }
  }

  lemma {:induction false} EndTaken(p: Plan, s: Sched, t: Task)
    requires p.Valid() && Placed(p, s) && Counted(p, s) && Reported(p, s) && !s.stop && Finished(p, s)
    requires t in Live(p, s)
    ensures t in Taken(p, s) && t in s.hasrun && t in s.retired
    decreases p.depth[t]
  {
    assert p.Lists(t, p.origin[t]);
    if p.origin[t].SpawnedBy? {
      EndTaken(p, s, p.origin[t].parent);
    }
    AllRetired(p, s);
  }

  lemma TakenInPlan(p: Plan, s: Sched)
    ensures Taken(p, s) <= p.All()
  {
  }

  lemma HasrunAcyclic(p: Plan, s: Sched)
    requires Ordered(p, s)
    ensures !Cyclic(Waits(p, s.runAfter), s.hasrun.Keys)
  {
  }

  lemma HasrunClosed(p: Plan, s: Sched)
    requires p.Valid() && Ordered(p, s) && s.hasrun.Keys == Live(p, s)
    ensures !WaitsForLost(p, s)
  {
    hide Live, Waits;
  }

  /** An unstopped build that has come to its end has run every task but those that were lost, and nothing
      waited in a circle. */
  lemma EndIsComplete(p: Plan, s: Sched)
    requires Inv(p, s) && !s.stop && Finished(p, s)
    ensures s.hasrun.Keys == Live(p, s)
    ensures !Cyclic(Waits(p, s.runAfter), Live(p, s)) && !WaitsForLost(p, s)
  {
    hide Placed, Counted, Reported, Ordered, Logged, Constrained, Barrier, Cleared, Stalled, p.Valid, Taken, Live,
         Lost, WaitsForLost, Finished;
    forall t | t in Live(p, s)
      ensures t in s.hasrun
    {
      EndTaken(p, s, t);
    }
    HasrunGone(p, s);
    forall t | t in s.hasrun
      ensures t in Live(p, s)
    {
      TakenLives(p, s, t);
    }
    HasrunAcyclic(p, s);
    assert s.hasrun.Keys == Live(p, s);
    HasrunClosed(p, s);
  }

  /** Every task has run exactly when no task that broke had `more_tasks`. */
  lemma CompleteIffNothingLost(p: Plan, s: Sched)
    requires Inv(p, s) && !s.stop && Finished(p, s)
    ensures s.hasrun.Keys == p.All() <==> NothingLost(p, s)
  {
    hide Placed, Counted, Ordered, Logged, Constrained, Barrier, Cleared, Stalled, Taken, Live, Lost, WaitsForLost,
         Finished, Plan.Valid;
    EndIsComplete(p, s);
    HasrunGone(p, s);
    TakenInPlan(p, s);
    LostIff(p, s);
  }

  lemma LostIff(p: Plan, s: Sched)
    requires p.Valid() && forall t :: t in s.broken ==> t in p.origin
    ensures Live(p, s) == p.All() <==> NothingLost(p, s)
  {
    if NothingLost(p, s) {
      forall t | t in p.origin
        ensures t in Live(p, s)
      {
        NotLost(p, s, t);
      }
    } else {
      var q :| q in s.broken && p.more[q] != [];
      var t := p.more[q][0];
      assert p.Lists(t, SpawnedBy(q, 0));
      assert Lost(p, s, t) && t in p.All() && t !in Live(p, s);
    }
  }

  lemma {:induction false} NotLost(p: Plan, s: Sched, t: Task)
    requires p.Valid() && NothingLost(p, s) && t in p.origin
    ensures t in Live(p, s)
    decreases p.depth[t]
  {
    assert p.Lists(t, p.origin[t]);
    if p.origin[t].SpawnedBy? {
      NotLost(p, s, p.origin[t].parent);
    }
  }

  /** Producer before consumer, in every state a build can be in: once the status of `t` has been decided,
      let alone once its `run` has begun, every task of its group that outputs a file `t` reads, or is
      ordered before it by its class, has run or was skipped. */
  lemma ProducerBeforeConsumer(p: Plan, s: Sched, q: Task, t: Task)
    requires Inv(p, s) && Precedes(p, q, t) && s.Gone(t)
    ensures q in s.hasrun && StageOf(s.log, q) == Done(s.hasrun[q])
  {
    InPlan(p, s, t);
  }

  /** The same about the whole history of the build: wherever the log stands with the status of `t`
      decided, it has had `q` done. */
  lemma ProducerEndsFirst(p: Plan, s: Sched, q: Task, t: Task, i: nat)
    requires Inv(p, s) && i <= |s.log| && StageOf(s.log[..i], t) != Idle
    requires Precedes(p, q, t) || (p.NoMore() && q in p.root && t in p.root && p.root[q] < p.root[t])
    ensures StageOf(s.log[..i], q).Done?
  {
    hide Placed, Counted, Reported, Ordered, Constrained, Barrier, Cleared, Stalled, OrderedLog, Before, Precedes,
         Plan.NoMore, Plan.Valid;
    StageNotIdle(s, t, i);
    MustGoFirst(p, s, q, t);
    LogObeys(p, s.runAfter, s.log, q, t, i);
  }

  lemma MustGoFirst(p: Plan, s: Sched, q: Task, t: Task)
    requires Inv(p, s) && s.Gone(t)
    requires Precedes(p, q, t) || (p.NoMore() && q in p.root && t in p.root && p.root[q] < p.root[t])
    ensures Before(p, s.runAfter, q, t)
  {
    InPlan(p, s, t);
  }

  lemma LogObeys(p: Plan, ra: RunAfter, log: seq<Event>, q: Task, t: Task, i: nat)
    requires OrderedLog(p, ra, log) && Before(p, ra, q, t) && i <= |log| && StageOf(log[..i], t) != Idle
    ensures StageOf(log[..i], q).Done?
  {
    hide Before;
    LogOrder(p, ra, log);
    LifecyclePrefix(log, i);
    var j := DecisionBefore(log[..i], t);
    assert Follows(p, ra, log[..j], log[j]);
    DoneStays(log, q, j, i);
  }

  lemma LogOrder(p: Plan, ra: RunAfter, log: seq<Event>)
    requires OrderedLog(p, ra, log)
    ensures Lifecycle(log)
  {
    forall i | 0 <= i < |log|
      ensures InStage(log[..i], log[i])
    {
      assert Follows(p, ra, log[..i], log[i]);
    }
  }

  lemma StageNotIdle(s: Sched, t: Task, i: nat)
    requires i <= |s.log| && StageOf(s.log[..i], t) != Idle
    requires forall t :: !s.Gone(t) ==> StageOf(s.log, t) == Idle
    ensures s.Gone(t)
  {
    var j := LastEvent(s.log[..i], t);
    if StageOf(s.log, t) == Idle {
      IdleHasNoEvent(s.log, t, j);
    }
  }

  lemma {:induction false} LastEvent(log: seq<Event>, t: Task) returns (j: nat)
    requires StageOf(log, t) != Idle
    ensures j < |log| && log[j].task == t
    decreases |log|
  {
    var n := |log| - 1;
    if log[n].task == t {
      j := n;
    } else {
      j := LastEvent(log[..n], t);
    }
  }

  /** A task that is past `Idle` has had its status decided. */
  lemma {:induction false} DecisionBefore(log: seq<Event>, t: Task) returns (j: nat)
    requires Lifecycle(log) && StageOf(log, t) != Idle
    ensures j < |log| && Decision(log[j]) && log[j].task == t
    decreases |log|
  {
    var n := |log| - 1;
    if log[n].task == t && Decision(log[n]) {
      return n;
    }
    assert InStage(log[..n], log[n]);
    LifecyclePrefix(log, n);
    j := DecisionBefore(log[..n], t);
  }

  lemma LifecyclePrefix(log: seq<Event>, n: nat)
    requires Lifecycle(log) && n <= |log|
    ensures Lifecycle(log[..n])
  {
    forall i | 0 <= i < n
      ensures InStage(log[..n][..i], log[..n][i])
    {
      assert log[..n][..i] == log[..i];
      assert InStage(log[..i], log[i]);
    }
  }

  lemma {:induction false} DoneStays(log: seq<Event>, t: Task, j: nat, i: nat)
    requires Lifecycle(log) && j <= i <= |log| && StageOf(log[..j], t).Done?
    ensures StageOf(log[..i], t) == StageOf(log[..j], t)
    decreases i - j
  {
    if j < i {
      assert InStage(log[..i - 1], log[i - 1]);
      DoneStays(log, t, j, i - 1);
      assert log[..i] == log[..i - 1] + [log[i - 1]];
      StageAfter(log[..i - 1], log[i - 1]);
    }
  }

  /** The group barrier: without `more_tasks`, while any task of a group has had its status decided,
      every task of every earlier group is retired. */
  lemma GroupBarrierHolds(p: Plan, s: Sched, q: Task, t: Task)
    requires Inv(p, s) && p.NoMore() && s.Gone(t) && q in p.root && t in p.root && p.root[q] < p.root[t]
    ensures q in s.retired
  {
    InPlan(p, s, t);
    RootTaken(p, s, t);
  }

  /** Of two tasks that have to go before each other neither has its status decided. */
  lemma {:induction false} NoMutual(p: Plan, ra: RunAfter, log: seq<Event>, q: Task, t: Task)
    requires OrderedLog(p, ra, log) && Before(p, ra, q, t) && Before(p, ra, t, q)
    ensures StageOf(log, t) == Idle
    decreases |log|
  {
    hide Before;
    if StageOf(log, t) != Idle {
      LogOrder(p, ra, log);
      var j := DecisionBefore(log, t);
      assert Follows(p, ra, log[..j], log[j]);
      OrderedPrefix(p, ra, log, j);
      NoMutual(p, ra, log[..j], t, q);
      assert false;
    }
  }

  lemma OrderedPrefix(p: Plan, ra: RunAfter, log: seq<Event>, n: nat)
    requires OrderedLog(p, ra, log) && n <= |log|
    ensures OrderedLog(p, ra, log[..n])
  {
    hide Follows;
    forall i | 0 <= i < n
      ensures Follows(p, ra, log[..n][..i], log[..n][i])
    {
      assert log[..n][..i] == log[..i];
    }
  }

  lemma NotIdleLater(p: Plan, ra: RunAfter, log: seq<Event>, q: Task, t: Task)
    requires OrderedLog(p, ra, log) && p.NoMore() && t in ra && q in ra[t] && StageOf(log, t).Done?
    requires t in p.root && q in p.root
    ensures NotLater(p, q, t)
  {
    hide OrderedLog, Plan.NoMore;
    if p.root[t] < p.root[q] {
      NoMutual(p, ra, log, q, t);
      assert false;
    }
  }

  lemma WaitsForDone(p: Plan, s: Sched, q: Task, t: Task)
    requires p.Valid() && Ordered(p, s) && Logged(p, s) && s.hasrun.Keys == p.All()
    requires t in s.runAfter && q in s.runAfter[t]
    ensures OrderedLog(p, s.runAfter, s.log) && StageOf(s.log, t).Done? && t in p.root && q in p.root
  {
    hide OrderedLog, Cyclic, Plan.Lists, StageOf;
    assert Edge(Waits(p, s.runAfter), t, q);
  }

  /** Without `more_tasks` a build that has run all its tasks had none that waits for a later group. */
  lemma CompleteKnown(p: Plan, s: Sched)
    requires Inv(p, s) && p.NoMore() && s.hasrun.Keys == p.All()
    ensures Known(p, s.runAfter)
  {
    hide Placed, Counted, Reported, Ordered, Logged, Constrained, Barrier, Cleared, Stalled, OrderedLog, Plan.NoMore,
         Plan.Valid, NotLater, StageOf;
    forall t, q | t in s.runAfter && q in s.runAfter[t]
      ensures NotLater(p, q, t)
    {
      WaitsForDone(p, s, q, t);
      NotIdleLater(p, s.runAfter, s.log, q, t);
    }
  }

  /** The outcome of a build that is not stopping. It is reported as deadlocked when, among the tasks that can be
      reached, some wait for each other in a circle or one waits for a task that was lost, and otherwise only if a
      task waits for one of a later group or for one the build does not have. A build that is not reported has run
      or skipped all that can be reached. Without `more_tasks` it is exactly so. */
  lemma Outcome(p: Plan, s: Sched, deadlocked: bool)
    requires Inv(p, s) && !s.stop
    requires if deadlocked then Stuck(s) else Finished(p, s)
    ensures WaitsForLost(p, s) || Cyclic(Waits(p, s.runAfter), Live(p, s)) ==> deadlocked
    ensures deadlocked ==>
      WaitsForLost(p, s) || Cyclic(Waits(p, s.runAfter), Live(p, s)) || !Known(p, s.runAfter)
    ensures !deadlocked ==> s.hasrun.Keys == Live(p, s)
    ensures p.keep < 2 || p.NoMore() ==> Live(p, s) == p.All() && (Known(p, s.runAfter) ==> !WaitsForLost(p, s))
    ensures p.NoMore() ==>
      (deadlocked <==> Cyclic(Waits(p, s.runAfter), p.All()) || !Known(p, s.runAfter))
  {
    hide Inv, Cyclic, Waits, Known, Stuck, WaitsForLost, Live, Plan.NoMore, Finished;
    PlanValid(p, s);
    if p.keep < 2 || p.NoMore() {
      NothingIsLost(p, s);
    }
    if deadlocked {
      StuckHasCycle(p, s);
      if Cyclic(Waits(p, s.runAfter), Unfinished(p, s) * Live(p, s)) {
        CyclicGrows(Waits(p, s.runAfter), Unfinished(p, s) * Live(p, s), Waits(p, s.runAfter), Live(p, s));
      }
    } else {
      EndIsComplete(p, s);
      if p.NoMore() {
        CompleteKnown(p, s);
      }
    }
  }

  lemma PlanValid(p: Plan, s: Sched)
    requires Inv(p, s)
    ensures p.Valid()
  {
  }

  /** Every group has been handed out and nothing is waiting, frozen or in flight. */
  ghost predicate Finished(p: Plan, s: Sched) {
    s.count == 0 && s.outstanding == [] && s.frozen == [] && s.current == [] && s.cur == |p.groups|
  }
}
