/** Every step of the scheduler keeps its invariant. */
module ScheduleProofs {
  import opened Basics
  import opened Graphs
  import opened TaskOrder
  import opened Schedule

  // --- the log

  lemma StageAfter(log: seq<Event>, e: Event)
    ensures forall t :: t != e.task ==> StageOf(log + [e], t) == StageOf(log, t)
    ensures StageOf(log + [e], e.task) ==
      match e case Queue(_) => Queued case Begin(_) => Started case End(_, st) => Done(st)
              case Skip(_) => Done(Skipped) case Broke(_, st) => Done(st)
  {
    assert (log + [e])[..|log + [e]| - 1] == log;
  }

  lemma AppendOrdered(p: Plan, ra: RunAfter, log: seq<Event>, e: Event)
    requires OrderedLog(p, ra, log) && Follows(p, ra, log, e)
    ensures OrderedLog(p, ra, log + [e])
  {
    var l := log + [e];
    forall i | 0 <= i < |l|
      ensures Follows(p, ra, l[..i], l[i])
    {
      if i < |log| {
        assert l[..i] == log[..i];
        assert Follows(p, ra, log[..i], log[i]);
      } else {
        assert l[..i] == log;
      }
    }
  }

  // --- a task is in one place

  ghost function Tally(s: Sched, t: Task): nat {
    multiset(s.outstanding)[t] + multiset(s.frozen)[t] + multiset(s.current)[t]
    + multiset(s.ready)[t] + multiset(s.fetched)[t] + multiset(s.running)[t] + multiset(s.failed)[t]
    + multiset(s.stopping)[t] + multiset(s.returning)[t] + multiset(s.out)[t] + multiset(s.retired)[t]
  }

  lemma OnePlace(p: Plan, s: Sched, t: Task)
    requires Placed(p, s)
    ensures Tally(s, t) <= 1 && (Tally(s, t) == 1 <==> t in Taken(p, s))
  {
    assert s.Places()[t] == Tally(s, t);
    assert multiset(Taken(p, s))[t] <= 1;
  }

  lemma HeadTail<T>(q: seq<T>)
    requires q != []
    ensures multiset(q) == multiset{q[0]} + multiset(q[1..])
  {
    assert q == [q[0]] + q[1..];
  }

  lemma AddOne<T>(s: set<T>, t: T)
    requires t !in s
    ensures multiset(s + {t}) == multiset(s) + multiset{t} && |s + {t}| == |s| + 1
  {
  }

  lemma TakeOne<T>(s: set<T>, t: T)
    requires t in s
    ensures multiset(s) == multiset(s - {t}) + multiset{t} && |s| == |s - {t}| + 1
  {
    AddOne(s - {t}, t);
    assert s - {t} + {t} == s;
  }

  // --- what carries over when a step leaves a part of the snapshot alone

  lemma KeepOrdered(p: Plan, s: Sched, r: Sched)
    requires Ordered(p, s) && r.runAfter == s.runAfter && r.hasrun == s.hasrun
    requires forall t :: r.Gone(t) ==> s.Gone(t)
    ensures Ordered(p, r)
  {
  }

  lemma KeepLogged(p: Plan, s: Sched, r: Sched)
    requires Logged(p, s) && r.runAfter == s.runAfter && r.hasrun == s.hasrun && r.log == s.log
    requires forall t :: t in r.ready || t in r.fetched ==> t in s.ready || t in s.fetched
    requires r.running <= s.running
    requires forall t :: s.Gone(t) ==> r.Gone(t)
    ensures Logged(p, r)
  {
  }

  lemma AppendLogged(p: Plan, s: Sched, r: Sched, e: Event)
    requires Logged(p, s) && r.runAfter == s.runAfter && r.log == s.log + [e] && Follows(p, s.runAfter, s.log, e)
    requires forall t :: t in r.ready || t in r.fetched ==>
      if t == e.task then e.Queue? else t in s.ready || t in s.fetched
    requires forall t :: t in r.running ==> if t == e.task then e.Begin? else t in s.running
    requires forall t :: s.Gone(t) || t == e.task ==> r.Gone(t)
    requires r.hasrun == match e case Queue(_) => s.hasrun case Begin(_) => s.hasrun
      case End(t, st) => s.hasrun[t := st]
                                 case Skip(t) => s.hasrun[t := Skipped] case Broke(t, st) => s.hasrun[t := st]
    ensures Logged(p, r)
  {
    StageAfter(s.log, e);
    AppendOrdered(p, s.runAfter, s.log, e);
  }

  lemma KeepRest(p: Plan, s: Sched, r: Sched)
    requires Constrained(p, s) && Barrier(p, s) && Cleared(p, s)
    requires r.runAfter == s.runAfter && r.cur == s.cur && (forall t :: t in s.retired ==> t in r.retired)
    requires r.current == [] || (r.current == s.current && r.cleared == s.cleared)
    requires forall t :: t in s.hasrun ==> t in r.hasrun
    ensures Constrained(p, r) && Barrier(p, r) && Cleared(p, r)
  {
  }

  /** `hasrun` grows by a task whose predecessors and spawner are done. */
  lemma GrowOrdered(p: Plan, s: Sched, r: Sched, t: Task)
    requires Ordered(p, s) && r.runAfter == s.runAfter && r.hasrun.Keys == s.hasrun.Keys + {t}
    requires t in s.runAfter && s.runAfter[t] <= s.hasrun.Keys
    requires t in p.origin && p.origin[t].SpawnedBy? ==> p.origin[t].parent in s.hasrun
    requires forall x :: r.Gone(x) ==> s.Gone(x) || x == t
    ensures Ordered(p, r)
  {
    AddToClosed(Waits(p, s.runAfter), s.hasrun.Keys, t);
  }

  lemma BeginFollows(p: Plan, s: Sched, t: Task)
    requires Logged(p, s) && t in s.fetched
    ensures Follows(p, s.runAfter, s.log, Begin(t))
  {
  }

  lemma EndFollows(p: Plan, s: Sched, t: Task, st: Status)
    requires Logged(p, s) && t in s.running && st != Skipped
    ensures Follows(p, s.runAfter, s.log, End(t, st))
  {
  }

  lemma DecisionFollows(p: Plan, s: Sched, e: Event)
    requires Logged(p, s) && Ready(p, s, e.task) && !s.Gone(e.task) && Decision(e)
    ensures Follows(p, s.runAfter, s.log, e)
  {
  }

  // --- worker steps

  lemma FetchPlaced(p: Plan, s: Sched)
    requires Placed(p, s) && Counted(p, s) && s.ready != [] && s.Workers() < p.numjobs
    ensures Placed(p, Fetch(s)) && Counted(p, Fetch(s))
  {
    var r, t := Fetch(s), s.ready[0];
    HeadTail(s.ready);
    OnePlace(p, s, t);
    AddOne(s.fetched, t);
    assert Taken(p, r) == Taken(p, s);
  }

  lemma FetchReported(p: Plan, s: Sched)
    requires Reported(p, s) && Stalled(s) && Counted(p, s) && s.ready != []
    ensures Reported(p, Fetch(s)) && Stalled(Fetch(s))
  {
  }

  lemma FetchKeeps(p: Plan, s: Sched)
    requires Inv(p, s) && s.ready != [] && s.Workers() < p.numjobs
    ensures Inv(p, Fetch(s))
  {
    hide Placed, Counted, Reported, Ordered, Logged, Constrained, Barrier, Cleared, Stalled;
    var r := Fetch(s);
    FetchPlaced(p, s);
    FetchReported(p, s);
    assert forall x :: r.Gone(x) == s.Gone(x);
    KeepOrdered(p, s, r);
    KeepLogged(p, s, r);
    KeepRest(p, s, r);
  }

  lemma EnterFree(p: Plan, s: Sched, t: Task)
    requires Placed(p, s) && t in s.fetched
    ensures t !in s.running && t !in s.out && t !in s.ready
  {
    OnePlace(p, s, t);
  }

  lemma EnterPlaced(p: Plan, s: Sched, t: Task)
    requires Placed(p, s) && Counted(p, s) && t in s.fetched
    ensures Placed(p, Enter(s, t)) && Counted(p, Enter(s, t))
    ensures t !in s.running && t !in s.out && t !in s.ready
  {
    hide Sched.Places;
    EnterFree(p, s, t);
    TakeOne(s.fetched, t);
    assert Taken(p, Enter(s, t)) == Taken(p, s);
    if s.stop {
      EnterStopPlaces(s, t);
    } else {
      AddOne(s.running, t);
      EnterRunPlaces(s, t);
    }
  }

  lemma EnterStopPlaces(s: Sched, t: Task)
    requires t in s.fetched && s.stop
    ensures Enter(s, t).Places() == s.Places()
  {
    TakeOne(s.fetched, t);
    assert multiset(s.out + [t]) == multiset(s.out) + multiset{t};
  }

  lemma EnterRunPlaces(s: Sched, t: Task)
    requires t in s.fetched && !s.stop && t !in s.running
    ensures Enter(s, t).Places() == s.Places()
  {
    TakeOne(s.fetched, t);
    AddOne(s.running, t);
  }

  lemma EnterReported(p: Plan, s: Sched, t: Task)
    requires Reported(p, s) && Stalled(s) && Counted(p, s) && t in s.fetched
    ensures Reported(p, Enter(s, t)) && Stalled(Enter(s, t))
  {
  }

  lemma EnterKeeps(p: Plan, s: Sched, t: Task)
    requires Inv(p, s) && t in s.fetched
    ensures Inv(p, Enter(s, t))
  {
    hide Placed, Counted, Reported, Ordered, Logged, Constrained, Barrier, Cleared, Stalled, Follows;
    var r := Enter(s, t);
    BeginFollows(p, s, t);
    EnterPlaced(p, s, t);
    EnterReported(p, s, t);
    assert forall x :: r.Gone(x) == s.Gone(x);
    KeepOrdered(p, s, r);
    KeepRest(p, s, r);
    if s.stop {
      KeepLogged(p, s, r);
    } else {
      AppendLogged(p, s, r, Begin(t));
    }
  }

  lemma FinishPlaced(p: Plan, s: Sched, t: Task, st: Status)
    requires Placed(p, s) && Counted(p, s) && t in s.running
    ensures Placed(p, Finish(s, t, st)) && Counted(p, Finish(s, t, st))
    ensures t !in s.failed + s.stopping + s.returning && t !in s.out && t !in s.retired && t !in s.ready
            && t !in s.fetched
    ensures t in p.origin && t in Taken(p, s)
  {
    OnePlace(p, s, t);
    TakeOne(s.running, t);
    assert Taken(p, Finish(s, t, st)) == Taken(p, s);
    if st == Success {
      AddOne(s.returning, t);
      FinishGoodPlaces(s, t);
    } else {
      AddOne(s.failed, t);
      FinishBadPlaces(s, t, st);
    }
  }

  lemma FinishGoodPlaces(s: Sched, t: Task)
    requires t in s.running && t !in s.returning
    ensures Finish(s, t, Success).Places() == s.Places()
  {
    TakeOne(s.running, t);
    AddOne(s.returning, t);
  }

  lemma FinishBadPlaces(s: Sched, t: Task, st: Status)
    requires t in s.running && t !in s.failed && st != Success
    ensures Finish(s, t, st).Places() == s.Places()
  {
    TakeOne(s.running, t);
    AddOne(s.failed, t);
  }

  lemma FinishReported(p: Plan, s: Sched, t: Task, st: Status)
    requires Reported(p, s) && t in s.running && st != Skipped
    requires t !in s.failed + s.stopping + s.returning && t !in s.out && t !in s.retired
    ensures Reported(p, Finish(s, t, st)) && t !in s.hasrun
  {
    var r := Finish(s, t, st);
    assert t !in s.hasrun;
    assert r.failed + r.stopping + r.returning == s.failed + s.stopping + s.returning + {t};
  }

  lemma FinishStalled(p: Plan, s: Sched, t: Task, st: Status)
    requires Stalled(s) && Counted(p, s) && t in s.running
    ensures Stalled(Finish(s, t, st))
  {
  }

  lemma SpawnerDone(p: Plan, s: Sched, t: Task)
    requires Reported(p, s) && t in Taken(p, s)
    ensures t in p.origin && (p.origin[t].SpawnedBy? ==> p.origin[t].parent in s.hasrun)
  {
  }

  lemma GoneReady(p: Plan, s: Sched, t: Task)
    requires Ordered(p, s) && s.Gone(t) && t in p.origin
    ensures t in s.runAfter && s.runAfter[t] <= s.hasrun.Keys
  {
  }

  lemma FinishKeeps(p: Plan, s: Sched, t: Task, st: Status)
    requires Inv(p, s) && t in s.running && st != Skipped
    ensures Inv(p, Finish(s, t, st))
  {
    hide Placed, Counted, Reported, Ordered, Logged, Constrained, Barrier, Cleared, Stalled, Follows, Taken, Finish;
    FinishPlaced(p, s, t, st);
    FinishReported(p, s, t, st);
    FinishStalled(p, s, t, st);
    SpawnerDone(p, s, t);
    FinishOrdered(p, s, t, st);
    FinishLogged(p, s, t, st);
    FinishRest(p, s, t, st);
  }

  lemma FinishGone(s: Sched, t: Task, st: Status)
    requires t in s.running
    ensures forall x :: Finish(s, t, st).Gone(x) == s.Gone(x)
  {
  }

  lemma FinishOrdered(p: Plan, s: Sched, t: Task, st: Status)
    requires Ordered(p, s) && t in s.running && t in p.origin
    requires p.origin[t].SpawnedBy? ==> p.origin[t].parent in s.hasrun
    ensures Ordered(p, Finish(s, t, st))
  {
    hide Ordered;
    FinishGone(s, t, st);
    GoneReady(p, s, t);
    GrowOrdered(p, s, Finish(s, t, st), t);
  }

  lemma FinishLogged(p: Plan, s: Sched, t: Task, st: Status)
    requires Logged(p, s) && t in s.running && st != Skipped && t !in s.ready && t !in s.fetched
    ensures Logged(p, Finish(s, t, st))
  {
    hide Logged, Follows;
    EndFollows(p, s, t, st);
    FinishGone(s, t, st);
    AppendLogged(p, s, Finish(s, t, st), End(t, st));
  }

  lemma FinishRest(p: Plan, s: Sched, t: Task, st: Status)
    requires Constrained(p, s) && Barrier(p, s) && Cleared(p, s)
    ensures Constrained(p, Finish(s, t, st)) && Barrier(p, Finish(s, t, st)) && Cleared(p, Finish(s, t, st))
  {
    hide Constrained, Barrier, Cleared;
    KeepRest(p, s, Finish(s, t, st));
  }

  lemma RaiseStopPlaced(p: Plan, s: Sched, t: Task)
    requires Placed(p, s) && Counted(p, s) && t in s.failed
    ensures Placed(p, RaiseStop(p, s, t)) && Counted(p, RaiseStop(p, s, t))
  {
    OnePlace(p, s, t);
    TakeOne(s.failed, t);
    AddOne(s.stopping, t);
    assert Taken(p, RaiseStop(p, s, t)) == Taken(p, s);
  }

  lemma RaiseStopReported(p: Plan, s: Sched, t: Task)
    requires Reported(p, s) && Stalled(s) && Counted(p, s) && t in s.failed
    ensures Reported(p, RaiseStop(p, s, t)) && Stalled(RaiseStop(p, s, t))
  {
  }

  lemma RaiseStopKeeps(p: Plan, s: Sched, t: Task)
    requires Inv(p, s) && t in s.failed
    ensures Inv(p, RaiseStop(p, s, t))
  {
    hide Placed, Counted, Reported, Ordered, Logged, Constrained, Barrier, Cleared, Stalled;
    var r := RaiseStop(p, s, t);
    RaiseStopPlaced(p, s, t);
    RaiseStopReported(p, s, t);
    assert forall x :: r.Gone(x) == s.Gone(x);
    KeepOrdered(p, s, r);
    KeepLogged(p, s, r);
    KeepRest(p, s, r);
  }

  lemma ReportPlaced(p: Plan, s: Sched, t: Task)
    requires Placed(p, s) && Counted(p, s) && t in s.stopping
    ensures Placed(p, Report(s, t)) && Counted(p, Report(s, t))
  {
    OnePlace(p, s, t);
    TakeOne(s.stopping, t);
    AddOne(s.returning, t);
    assert Taken(p, Report(s, t)) == Taken(p, s);
  }

  lemma ReportReported(p: Plan, s: Sched, t: Task)
    requires Reported(p, s) && Stalled(s) && Counted(p, s) && t in s.stopping
    ensures Reported(p, Report(s, t)) && Stalled(Report(s, t))
  {
  }

  lemma ReportKeeps(p: Plan, s: Sched, t: Task)
    requires Inv(p, s) && t in s.stopping
    ensures Inv(p, Report(s, t))
  {
    hide Placed, Counted, Reported, Ordered, Logged, Constrained, Barrier, Cleared, Stalled;
    var r := Report(s, t);
    ReportPlaced(p, s, t);
    ReportReported(p, s, t);
    assert forall x :: r.Gone(x) == s.Gone(x);
    KeepOrdered(p, s, r);
    KeepLogged(p, s, r);
    KeepRest(p, s, r);
  }

  lemma HandBackPlaced(p: Plan, s: Sched, t: Task)
    requires Placed(p, s) && Counted(p, s) && t in s.returning
    ensures Placed(p, HandBack(s, t)) && Counted(p, HandBack(s, t))
  {
    OnePlace(p, s, t);
    TakeOne(s.returning, t);
    assert Taken(p, HandBack(s, t)) == Taken(p, s);
  }

  lemma HandBackReported(p: Plan, s: Sched, t: Task)
    requires Reported(p, s) && Stalled(s) && Counted(p, s) && t in s.returning
    ensures Reported(p, HandBack(s, t)) && Stalled(HandBack(s, t))
  {
  }

  lemma HandBackKeeps(p: Plan, s: Sched, t: Task)
    requires Inv(p, s) && t in s.returning
    ensures Inv(p, HandBack(s, t))
  {
    hide Placed, Counted, Reported, Ordered, Logged, Constrained, Barrier, Cleared, Stalled;
    var r := HandBack(s, t);
    HandBackPlaced(p, s, t);
    HandBackReported(p, s, t);
    assert forall x :: r.Gone(x) == s.Gone(x);
    KeepOrdered(p, s, r);
    KeepLogged(p, s, r);
    KeepRest(p, s, r);
  }

  lemma WorkerStepKeeps(p: Plan, s: Sched, r: Sched)
    requires Inv(p, s) && WorkerStep(p, s, r)
    ensures Inv(p, r)
  {
    hide Inv;
    if s.ready != [] && s.Workers() < p.numjobs && r == Fetch(s) {
      FetchKeeps(p, s);
    } else if t :| t in s.fetched && r == Enter(s, t) {
      EnterKeeps(p, s, t);
    } else if t, st :| t in s.running && st != Skipped && r == Finish(s, t, st) {
      FinishKeeps(p, s, t, st);
    } else if t :| t in s.failed && r == RaiseStop(p, s, t) {
      RaiseStopKeeps(p, s, t);
    } else if t :| t in s.stopping && r == Report(s, t) {
      ReportKeeps(p, s, t);
    } else {
      var t :| t in s.returning && r == HandBack(s, t);
      HandBackKeeps(p, s, t);
    }
  }

  // --- steps of the main thread

  lemma {:induction false} ListedOnce(q: seq<Task>)
    requires NoDup(q)
    ensures multiset(q) == multiset(Elements(q))
    decreases |q|
  {
    if q != [] {
      var rest := q[1..];
      HeadTail(q);
      ListedOnce(rest);
      assert q[0] !in Elements(rest);
      assert Elements(q) == Elements(rest) + {q[0]};
      AddOne(Elements(rest), q[0]);
    }
  }

  lemma MoreListedOnce(p: Plan, t: Task)
    requires p.Valid() && t in p.more
    ensures NoDup(p.more[t])
    ensures forall x :: x in p.more[t] <==> x in p.origin && p.origin[x].SpawnedBy? && p.origin[x].parent == t
  {
    var q := p.more[t];
    forall i | 0 <= i < |q|
      ensures q[i] in p.origin && p.origin[q[i]] == SpawnedBy(t, i)
    {
      assert p.Lists(q[i], SpawnedBy(t, i));
    }
    forall x | x in p.origin && p.origin[x].SpawnedBy? && p.origin[x].parent == t
      ensures x in q
    {
      assert p.Lists(x, p.origin[x]);
    }
  }

  lemma GroupListedOnce(p: Plan, g: nat)
    requires p.Valid() && g < |p.groups|
    ensures NoDup(p.groups[g])
    ensures forall x :: x in p.groups[g] <==> x in p.origin && p.origin[x].InGroup? && p.origin[x].group == g
  {
    var q := p.groups[g];
    forall i | 0 <= i < |q|
      ensures q[i] in p.origin && p.origin[q[i]] == InGroup(g, i)
    {
      assert p.Lists(q[i], InGroup(g, i));
    }
    forall x | x in p.origin && p.origin[x].InGroup? && p.origin[x].group == g
      ensures x in q
    {
      assert p.Lists(x, p.origin[x]);
    }
  }

  ghost function Expand(p: Plan, s: Sched, t: Task): Sched
    requires t in p.more
  {
    s.(outstanding := s.outstanding + p.more[t], expanded := s.expanded + {t})
  }

  lemma ExpandPlaced(p: Plan, s: Sched, t: Task)
    requires p.Valid() && Placed(p, s) && t in p.more && t !in s.expanded
    ensures Placed(p, Expand(p, s, t))
  {
    var r := Expand(p, s, t);
    MoreListedOnce(p, t);
    ListedOnce(p.more[t]);
    var new_ := Elements(p.more[t]);
    assert Taken(p, r) == Taken(p, s) + new_;
    assert Taken(p, s) !! new_;
    assert multiset(Taken(p, r)) == multiset(Taken(p, s)) + multiset(new_);
  }

  lemma InPlan(p: Plan, s: Sched, t: Task)
    requires Placed(p, s)
    requires t in s.outstanding || t in s.frozen || t in s.current || s.Gone(t)
    ensures t in p.origin && t in Taken(p, s)
  {
    OnePlace(p, s, t);
  }

  ghost function Retire(s: Sched): Sched
    requires s.out != []
  {
    s.(out := s.out[1..], retired := s.retired + [s.out[0]], count := s.count - 1)
  }

  lemma RetirePlaced(p: Plan, s: Sched)
    requires Placed(p, s) && Counted(p, s) && s.out != []
    ensures Placed(p, Retire(s)) && Counted(p, Retire(s)) && s.out[0] in p.origin
    ensures s.out[0] !in s.retired
  {
    InPlan(p, s, s.out[0]);
    OnePlace(p, s, s.out[0]);
    HeadTail(s.out);
    assert Taken(p, Retire(s)) == Taken(p, s);
  }

  lemma GetOutPlaced(p: Plan, s: Sched)
    requires p.Valid() && Placed(p, s) && Counted(p, s) && Reported(p, s) && s.out != []
    ensures s.out[0] in p.more && s.out[0] !in s.retired && Placed(p, GetOut(p, s)) && Counted(p, GetOut(p, s))
  {
    hide Placed, Counted;
    RetirePlaced(p, s);
    if !s.stop {
      ExpandPlaced(p, Retire(s), s.out[0]);
      ExpandCounted(p, Retire(s), s.out[0]);
      assert GetOut(p, s) == Expand(p, Retire(s), s.out[0]);
    }
  }

  lemma ExpandCounted(p: Plan, s: Sched, t: Task)
    requires Counted(p, s) && t in p.more
    ensures Counted(p, Expand(p, s, t))
  {
  }

  lemma GetOutReported(p: Plan, s: Sched)
    requires Reported(p, s) && Stalled(s) && Counted(p, s) && s.out != [] && s.out[0] in p.more
             && s.out[0] !in s.retired
    ensures Reported(p, GetOut(p, s)) && Stalled(GetOut(p, s))
  {
    assert s.out == [s.out[0]] + s.out[1..];
  }

  lemma GetOutGone(p: Plan, s: Sched)
    requires s.out != [] && s.out[0] in p.more
    ensures forall x :: GetOut(p, s).Gone(x) == s.Gone(x)
  {
    assert s.out == [s.out[0]] + s.out[1..];
  }

  lemma GetOutKeeps(p: Plan, s: Sched)
    requires Inv(p, s) && s.out != []
    ensures s.out[0] in p.more && Inv(p, GetOut(p, s))
  {
    hide Placed, Counted, Reported, Ordered, Logged, Constrained, Barrier, Cleared, Stalled, Sched.Gone;
    GetOutPlaced(p, s);
    GetOutReported(p, s);
    var r := GetOut(p, s);
    GetOutGone(p, s);
    KeepOrdered(p, s, r);
    KeepLogged(p, s, r);
    KeepRest(p, s, r);
  }

  lemma PopPlaced(p: Plan, s: Sched)
    requires Placed(p, s) && Counted(p, s) && s.outstanding != [] && s.current == []
    ensures Placed(p, Pop(s)) && Counted(p, Pop(s))
  {
    HeadTail(s.outstanding);
    assert Taken(p, Pop(s)) == Taken(p, s);
  }

  lemma PopKeeps(p: Plan, s: Sched)
    requires Inv(p, s) && s.outstanding != [] && s.current == []
    ensures Inv(p, Pop(s))
  {
    hide Placed, Counted, Ordered, Logged, Constrained, Barrier;
    var r := Pop(s);
    PopPlaced(p, s);
    assert forall x :: r.Gone(x) == s.Gone(x);
    KeepOrdered(p, s, r);
    KeepLogged(p, s, r);
    KeepRest(p, s, r.(current := s.current));
    KeepGroups(p, r.(current := s.current), r);
  }

  lemma KeepGroups(p: Plan, s: Sched, r: Sched)
    requires Constrained(p, s) && Barrier(p, s) && r.runAfter == s.runAfter && r.cur == s.cur && r.retired == s.retired
    ensures Constrained(p, r) && Barrier(p, r)
  {
  }

  /** When `stop` is unset, whatever is retired is done, and so are all earlier groups. */
  lemma EarlierGroupDone(p: Plan, s: Sched, q: Task, t: Task)
    requires p.Valid() && Placed(p, s) && Reported(p, s) && Barrier(p, s) && !s.stop
    requires p.NoMore() && t in s.current && EarlierGroup(p, q, t)
    ensures q in s.hasrun
  {
    InPlan(p, s, t);
    RootTaken(p, s, t);
  }

  lemma ClearKeeps(p: Plan, s: Sched)
    requires Inv(p, s) && !s.stop
    ensures Inv(p, Clear(s))
  {
    hide Placed, Counted, Ordered, Logged, Constrained, Barrier, Reported, Stalled, Plan.Valid, Plan.NoMore,
         EarlierGroup;
    var r := Clear(s);
    ClearPlaced(p, s);
    assert forall x :: r.Gone(x) == s.Gone(x);
    KeepOrdered(p, s, r);
    KeepLogged(p, s, r);
    KeepGroups(p, s, r);
    if p.NoMore() {
      forall q, t | t in s.current && EarlierGroup(p, q, t)
        ensures q in s.hasrun
      {
        EarlierGroupDone(p, s, q, t);
      }
    }
  }

  lemma ClearPlaced(p: Plan, s: Sched)
    requires Placed(p, s) && Counted(p, s) && Reported(p, s) && Stalled(s)
    ensures Placed(p, Clear(s)) && Counted(p, Clear(s)) && Reported(p, Clear(s)) && Stalled(Clear(s))
  {
    assert Taken(p, Clear(s)) == Taken(p, s);
    assert Clear(s).Places() == s.Places();
  }

  /** A task with nothing left in its `run_after` has nothing else to wait for. */
  lemma ChosenReady(p: Plan, s: Sched)
    requires Ordered(p, s) && Cleared(p, s) && s.Chosen()
    ensures Ready(p, s, s.current[0])
  {
    hide Plan.NoMore, EarlierGroup;
  }

  lemma PostponePlaced(p: Plan, s: Sched, front: bool)
    requires Placed(p, s) && Counted(p, s) && |s.current| == 1
    ensures Placed(p, Postpone(s, front)) && Counted(p, Postpone(s, front))
  {
    assert Taken(p, Postpone(s, front)) == Taken(p, s);
  }

  lemma PostponeStalled(p: Plan, s: Sched, front: bool)
    requires Stalled(s) && Reported(p, s) && |s.current| == 1
             && (s.deadlock == Some(s.processed) ==> s.Blocked(s.current[0]))
    ensures Stalled(Postpone(s, front)) && Reported(p, Postpone(s, front))
  {
  }

  lemma PostponeKeeps(p: Plan, s: Sched, front: bool)
    requires Inv(p, s) && |s.current| == 1
    requires s.deadlock == Some(s.processed) ==> s.Blocked(s.current[0])
    ensures Inv(p, Postpone(s, front))
  {
    hide Placed, Counted, Reported, Ordered, Logged, Constrained, Barrier, Cleared, Stalled, Sched.Blocked, Plan.Valid;
    var r := Postpone(s, front);
    PostponePlaced(p, s, front);
    PostponeStalled(p, s, front);
    assert forall x :: r.Gone(x) == s.Gone(x);
    KeepOrdered(p, s, r);
    KeepLogged(p, s, r);
    KeepRest(p, s, r);
  }

  /** `hasrun` stays; one more task is gone, with everything before it done. */
  lemma GrowGone(p: Plan, s: Sched, r: Sched, t: Task)
    requires Ordered(p, s) && r.runAfter == s.runAfter && r.hasrun == s.hasrun && Ready(p, s, t)
    requires forall x :: r.Gone(x) ==> s.Gone(x) || x == t
    ensures Ordered(p, r)
  {
    assert forall q :: q in s.runAfter[t] ==> Before(p, s.runAfter, q, t);
  }

  lemma DispatchPlaced(p: Plan, s: Sched)
    requires Placed(p, s) && Counted(p, s) && |s.current| == 1 && s.count <= p.numjobs * GAP
    ensures Placed(p, Dispatch(s)) && Counted(p, Dispatch(s))
    ensures !s.Gone(s.current[0])
  {
    OnePlace(p, s, s.current[0]);
    assert s.current == [s.current[0]];
    assert Taken(p, Dispatch(s)) == Taken(p, s);
  }

  lemma DispatchKeeps(p: Plan, s: Sched)
    requires Inv(p, s) && |s.current| == 1 && s.count <= p.numjobs * GAP && Ready(p, s, s.current[0])
    ensures Inv(p, Dispatch(s))
  {
    hide Placed, Counted, Ordered, Logged, Constrained, Barrier, Cleared, Follows, Ready;
    var r, t := Dispatch(s), s.current[0];
    DispatchPlaced(p, s);
    assert forall x :: r.Gone(x) <==> s.Gone(x) || x == t;
    GrowGone(p, s, r, t);
    DecisionFollows(p, s, Queue(t));
    AppendLogged(p, s, r, Queue(t));
    KeepRest(p, s, r);
  }

  ghost function RetireSkipped(s: Sched): Sched
    requires |s.current| == 1
  {
    var t := s.current[0];
    s.(current := [], retired := s.retired + [t], processed := s.processed + 1, hasrun := s.hasrun[t := Skipped],
       log := s.log + [Skip(t)])
  }

  lemma RetireSkippedPlaced(p: Plan, s: Sched)
    requires Placed(p, s) && Counted(p, s) && |s.current| == 1
    ensures Placed(p, RetireSkipped(s)) && Counted(p, RetireSkipped(s))
    ensures !s.Gone(s.current[0]) && s.current[0] in Taken(p, s)
  {
    InPlan(p, s, s.current[0]);
    OnePlace(p, s, s.current[0]);
    assert Taken(p, RetireSkipped(s)) == Taken(p, s);
    RetireSkippedPlaces(s);
  }

  lemma RetireSkippedPlaces(s: Sched)
    requires |s.current| == 1
    ensures RetireSkipped(s).Places() == s.Places()
  {
    assert s.current == [s.current[0]];
    assert multiset(s.retired + [s.current[0]]) == multiset(s.retired) + multiset(s.current);
  }

  lemma SkipPlaced(p: Plan, s: Sched)
    requires p.Valid() && Placed(p, s) && Counted(p, s) && Reported(p, s) && |s.current| == 1
    ensures s.current[0] in p.more && Placed(p, SkipTask(p, s)) && Counted(p, SkipTask(p, s))
    ensures !s.Gone(s.current[0]) && s.current[0] in Taken(p, s)
  {
    hide Placed, Counted;
    RetireSkippedPlaced(p, s);
    ExpandPlaced(p, RetireSkipped(s), s.current[0]);
    ExpandCounted(p, RetireSkipped(s), s.current[0]);
    assert SkipTask(p, s) == Expand(p, RetireSkipped(s), s.current[0]);
  }

  lemma SkipReported(p: Plan, s: Sched)
    requires Reported(p, s) && Stalled(s) && |s.current| == 1 && s.current[0] in p.more && !s.Gone(s.current[0])
    ensures Reported(p, SkipTask(p, s)) && Stalled(SkipTask(p, s))
  {
  }

  lemma SkipKeeps(p: Plan, s: Sched)
    requires Inv(p, s) && |s.current| == 1 && Ready(p, s, s.current[0])
    ensures s.current[0] in p.more && Inv(p, SkipTask(p, s))
  {
    hide Placed, Counted, Reported, Ordered, Logged, Constrained, Barrier, Cleared, Stalled, Follows, Taken;
    SkipPlaced(p, s);
    SkipReported(p, s);
    var r, t := SkipTask(p, s), s.current[0];
    assert forall x :: r.Gone(x) <==> s.Gone(x) || x == t;
    SpawnerDone(p, s, t);
    assert forall q :: q in s.runAfter[t] ==> Before(p, s.runAfter, q, t);
    GrowOrdered(p, s, r, t);
    DecisionFollows(p, s, Skip(t));
    AppendLogged(p, s, r, Skip(t));
    KeepRest(p, s, r);
  }

  lemma BreakPlaced(p: Plan, s: Sched, verbose: bool)
    requires Placed(p, s) && Counted(p, s) && |s.current| == 1
    ensures Placed(p, Break(p, s, verbose)) && Counted(p, Break(p, s, verbose))
    ensures !s.Gone(s.current[0]) && s.current[0] in Taken(p, s)
  {
    InPlan(p, s, s.current[0]);
    OnePlace(p, s, s.current[0]);
    assert Taken(p, Break(p, s, verbose)) == Taken(p, s);
    BreakPlaces(p, s, verbose);
  }

  lemma BreakPlaces(p: Plan, s: Sched, verbose: bool)
    requires |s.current| == 1
    ensures Break(p, s, verbose).Places() == s.Places()
  {
    assert s.current == [s.current[0]];
    assert multiset(s.retired + [s.current[0]]) == multiset(s.retired) + multiset(s.current);
  }

  lemma BreakReported(p: Plan, s: Sched, verbose: bool)
    requires Reported(p, s) && Stalled(s) && |s.current| == 1 && !s.Gone(s.current[0])
    ensures Reported(p, Break(p, s, verbose)) && Stalled(Break(p, s, verbose))
  {
  }

  lemma BreakKeeps(p: Plan, s: Sched, verbose: bool)
    requires Inv(p, s) && |s.current| == 1 && Ready(p, s, s.current[0])
    ensures Inv(p, Break(p, s, verbose))
  {
    hide Placed, Counted, Reported, Ordered, Logged, Constrained, Barrier, Cleared, Stalled, Follows, Taken;
    BreakPlaced(p, s, verbose);
    BreakReported(p, s, verbose);
    var r, t := Break(p, s, verbose), s.current[0];
    assert forall x :: r.Gone(x) <==> s.Gone(x) || x == t;
    SpawnerDone(p, s, t);
    assert forall q :: q in s.runAfter[t] ==> Before(p, s.runAfter, q, t);
    GrowOrdered(p, s, r, t);
    DecisionFollows(p, s, r.log[|s.log|]);
    AppendLogged(p, s, r, r.log[|s.log|]);
    KeepRest(p, s, r);
  }

  lemma TakeFrozenPlaced(p: Plan, s: Sched)
    requires Placed(p, s) && Counted(p, s)
    ensures Placed(p, TakeFrozen(s)) && Counted(p, TakeFrozen(s))
  {
    var r := TakeFrozen(s);
    assert multiset(r.outstanding) + multiset(r.frozen) == multiset(s.outstanding) + multiset(s.frozen);
    assert r.Places() == s.Places();
    assert Taken(p, r) == Taken(p, s);
  }

  lemma NotePlaced(p: Plan, s: Sched)
    requires Placed(p, s) && Counted(p, s)
    ensures Placed(p, s.(deadlock := Some(s.processed))) && Counted(p, s.(deadlock := Some(s.processed)))
  {
    var r := s.(deadlock := Some(s.processed));
    assert Taken(p, r) == Taken(p, s);
    assert r.Places() == s.Places();
  }

  lemma TakeFrozenReported(p: Plan, s: Sched)
    requires Reported(p, s) && Stalled(s)
    ensures Reported(p, TakeFrozen(s)) && Stalled(TakeFrozen(s))
    ensures s.count == 0 ==> Reported(p, RetryFrozen(s)) && Stalled(RetryFrozen(s))
  {
  }

  lemma TakeFrozenKeeps(p: Plan, s: Sched)
    requires Inv(p, s)
    ensures Inv(p, TakeFrozen(s))
  {
    hide Placed, Counted, Reported, Stalled, Ordered, Logged, Constrained, Barrier, Cleared;
    var r := TakeFrozen(s);
    TakeFrozenPlaced(p, s);
    TakeFrozenReported(p, s);
    assert forall x :: r.Gone(x) == s.Gone(x);
    KeepOrdered(p, s, r);
    KeepLogged(p, s, r);
    KeepRest(p, s, r);
  }

  lemma RetryFrozenKeeps(p: Plan, s: Sched)
    requires Inv(p, s) && s.count == 0
    ensures Inv(p, RetryFrozen(s))
  {
    hide Placed, Counted, Reported, Stalled, Ordered, Logged, Constrained, Barrier, Cleared;
    var r := RetryFrozen(s);
    NotePlaced(p, s);
    TakeFrozenPlaced(p, s.(deadlock := Some(s.processed)));
    TakeFrozenReported(p, s);
    assert forall x :: r.Gone(x) == s.Gone(x);
    KeepOrdered(p, s, r);
    KeepLogged(p, s, r);
    KeepRest(p, s, r);
  }

  // --- the next group

  lemma IdleHasNoEvent(log: seq<Event>, t: Task, i: nat)
    requires StageOf(log, t) == Idle && i < |log|
    ensures log[i].task != t
  {
    if i < |log| - 1 {
      IdleHasNoEvent(log[..|log| - 1], t, i);
    }
  }

  lemma RootTaken(p: Plan, s: Sched, t: Task)
    requires p.Valid() && p.NoMore() && t in p.origin
    ensures t in p.root && (t in Taken(p, s) <==> p.root[t] < s.cur)
  {
    assert p.Lists(t, p.origin[t]);
  }

  /** Nothing is waiting and nothing is in flight: every task taken so far is retired. */
  lemma AllRetired(p: Plan, s: Sched)
    requires Placed(p, s) && Counted(p, s)
    requires s.outstanding == [] && s.frozen == [] && s.current == [] && s.count == 0
    ensures forall t :: t in s.retired <==> t in Taken(p, s)
  {
    assert s.Places() == multiset(s.retired);
    forall t
      ensures t in s.retired <==> t in Taken(p, s)
    {
      OnePlace(p, s, t);
    }
  }

  lemma GroupTakenAt(p: Plan, s: Sched, i: nat, ra: RunAfter, t: Task)
    requires p.Valid() && HandsOut(p, s, i, ra) && s.cur <= |p.groups|
    ensures t in Taken(p, TakeGroup(p, s, i, ra)) <==> t in Taken(p, s) || (i < |p.groups| && t in p.groups[i])
    ensures t in Taken(p, s) && i < |p.groups| ==> t !in p.groups[i]
  {
    if i < |p.groups| {
      GroupListedOnce(p, i);
    }
    if t in p.origin {
      assert p.Lists(t, p.origin[t]);
    }
  }

  lemma GroupTaken(p: Plan, s: Sched, i: nat, ra: RunAfter)
    requires p.Valid() && HandsOut(p, s, i, ra) && s.cur <= |p.groups|
    ensures Taken(p, TakeGroup(p, s, i, ra)) == Taken(p, s) + (if i < |p.groups| then Elements(p.groups[i]) else {})
    ensures i < |p.groups| ==> Taken(p, s) !! Elements(p.groups[i])
  {
    hide p.Valid, HandsOut, Taken;
    forall t
      ensures t in Taken(p, TakeGroup(p, s, i, ra)) <==> t in Taken(p, s) || (i < |p.groups| && t in p.groups[i])
      ensures t in Taken(p, s) && i < |p.groups| ==> t !in p.groups[i]
    {
      GroupTakenAt(p, s, i, ra, t);
    }
  }

  lemma GroupPlaces(p: Plan, s: Sched, i: nat, ra: RunAfter)
    ensures TakeGroup(p, s, i, ra).Places()
      == s.Places() + (if i < |p.groups| then multiset(p.groups[i]) else multiset{})
  {
  }

  lemma GroupCounted(p: Plan, s: Sched, i: nat, ra: RunAfter)
    requires Counted(p, s) && HandsOut(p, s, i, ra)
    ensures Counted(p, TakeGroup(p, s, i, ra)) && s.cur <= |p.groups|
  {
  }

  lemma GroupPlaced(p: Plan, s: Sched, i: nat, ra: RunAfter)
    requires p.Valid() && Placed(p, s) && Counted(p, s) && HandsOut(p, s, i, ra)
    ensures Placed(p, TakeGroup(p, s, i, ra)) && Counted(p, TakeGroup(p, s, i, ra))
    ensures forall t :: t in Taken(p, s) && i < |p.groups| ==> t !in p.groups[i]
  {
    hide p.Valid, HandsOut, Taken, Sched.Places, Counted;
    GroupCounted(p, s, i, ra);
    GroupTaken(p, s, i, ra);
    GroupPlaces(p, s, i, ra);
    if i < |p.groups| {
      GroupListedOnce(p, i);
      ListedOnce(p.groups[i]);
      UnionPlaced(Taken(p, s), Elements(p.groups[i]));
    }
  }

  lemma UnionPlaced(a: set<Task>, b: set<Task>)
    requires a !! b
    ensures multiset(a + b) == multiset(a) + multiset(b)
  {
  }

  lemma GroupOrdered(p: Plan, s: Sched, i: nat, ra: RunAfter)
    requires Ordered(p, s) && HandsOut(p, s, i, ra)
    requires forall t :: (s.Gone(t) || t in s.hasrun) && i < |p.groups| ==> t !in p.groups[i]
    ensures Ordered(p, TakeGroup(p, s, i, ra))
  {
    var r := TakeGroup(p, s, i, ra);
    assert forall x :: r.Gone(x) == s.Gone(x);
    var g, h := Waits(p, s.runAfter), Waits(p, ra);
    assert forall x, y :: x in s.hasrun ==> Edge(h, x, y) == Edge(g, x, y);
    if Cyclic(h, s.hasrun.Keys) {
      CyclicGrows(h, s.hasrun.Keys, g, s.hasrun.Keys);
    }
  }

  lemma GroupConstrained(p: Plan, s: Sched, i: nat, ra: RunAfter)
    requires p.Valid() && Constrained(p, s) && HandsOut(p, s, i, ra)
    ensures Constrained(p, TakeGroup(p, s, i, ra))
  {
    forall q, t | Precedes(p, q, t) && p.origin[t].group < TakeGroup(p, s, i, ra).cur
      ensures t in ra && q in ra[t]
    {
      GroupPair(p, s, i, ra, q, t);
    }
  }

  lemma GroupPair(p: Plan, s: Sched, i: nat, ra: RunAfter, q: Task, t: Task)
    requires p.Valid() && Constrained(p, s) && HandsOut(p, s, i, ra)
    requires Precedes(p, q, t) && p.origin[t].group <= i
    ensures t in ra && q in ra[t]
  {
    assert p.Lists(t, p.origin[t]);
    if i < |p.groups| {
      GroupListedOnce(p, i);
    }
  }

  lemma GroupBarrier(p: Plan, s: Sched, i: nat, ra: RunAfter)
    requires p.Valid() && HandsOut(p, s, i, ra)
    requires forall t :: t in s.retired <==> t in Taken(p, s)
    ensures Barrier(p, TakeGroup(p, s, i, ra))
  {
    var r := TakeGroup(p, s, i, ra);
    if p.NoMore() {
      forall t | t in p.root && p.root[t] + 1 < r.cur
        ensures t in s.retired
      {
        RootTaken(p, s, t);
        assert p.Lists(t, p.origin[t]);
      }
    }
  }

  lemma GroupLogged(p: Plan, s: Sched, i: nat, ra: RunAfter)
    requires Logged(p, s) && HandsOut(p, s, i, ra)
    requires forall t :: s.Gone(t) && i < |p.groups| ==> t !in p.groups[i]
    ensures Logged(p, TakeGroup(p, s, i, ra))
  {
    var r := TakeGroup(p, s, i, ra);
    assert forall x :: r.Gone(x) == s.Gone(x);
    hide Follows, Logged, HandsOut, Sched.Gone;
    forall k | 0 <= k < |s.log|
      ensures Follows(p, ra, s.log[..k], s.log[k])
    {
      GroupFollows(p, s, i, ra, k);
    }
    SameLogged(p, s, r);
  }

  lemma SameLogged(p: Plan, s: Sched, r: Sched)
    requires Logged(p, s) && OrderedLog(p, r.runAfter, s.log) && r.log == s.log && r.hasrun == s.hasrun
    requires r.ready == s.ready && r.fetched == s.fetched && r.running == s.running
    requires forall t :: r.Gone(t) == s.Gone(t)
    ensures Logged(p, r)
  {
    hide OrderedLog, Sched.Gone;
  }

  lemma GroupFollows(p: Plan, s: Sched, i: nat, ra: RunAfter, k: nat)
    requires Logged(p, s) && HandsOut(p, s, i, ra) && k < |s.log|
    requires forall t :: s.Gone(t) && i < |p.groups| ==> t !in p.groups[i]
    ensures Follows(p, ra, s.log[..k], s.log[k])
  {
    var t := s.log[k].task;
    LoggedGone(p, s, k);
    assert Follows(p, s.runAfter, s.log[..k], s.log[k]);
    hide Logged, InStage, Plan.NoMore, EarlierGroup;
    assert forall q :: Before(p, ra, q, t) == Before(p, s.runAfter, q, t);
  }

  lemma LoggedGone(p: Plan, s: Sched, k: nat)
    requires Logged(p, s) && k < |s.log|
    ensures s.Gone(s.log[k].task)
  {
    if !s.Gone(s.log[k].task) {
      IdleHasNoEvent(s.log, s.log[k].task, k);
    }
  }

  lemma HasrunGone(p: Plan, s: Sched)
    requires Placed(p, s) && Reported(p, s)
    ensures forall t :: s.Gone(t) || t in s.hasrun ==> t in Taken(p, s)
  {
    forall t | s.Gone(t)
      ensures t in Taken(p, s)
    {
      InPlan(p, s, t);
    }
    assert forall t :: t in s.hasrun ==> s.Gone(t);
  }

  lemma TakeGroupKeeps(p: Plan, s: Sched, i: nat, ra: RunAfter)
    requires Inv(p, s) && HandsOut(p, s, i, ra)
    requires s.frozen == [] && s.current == [] && s.count == 0 && OnlyMore(p, s)
    ensures Inv(p, TakeGroup(p, s, i, ra))
  {
    hide Placed, Counted, Reported, Ordered, Logged, Constrained, HandsOut, Taken, p.Valid, p.NoMore;
    GroupPlaced(p, s, i, ra);
    HasrunGone(p, s);
    GroupOrdered(p, s, i, ra);
    GroupConstrained(p, s, i, ra);
    if p.NoMore() {
      NothingMore(p, s);
      AllRetired(p, s);
      GroupBarrier(p, s, i, ra);
    }
    GroupLogged(p, s, i, ra);
    GroupReported(p, s, i, ra);
  }

  lemma NothingMore(p: Plan, s: Sched)
    requires p.NoMore() && OnlyMore(p, s)
    ensures s.outstanding == []
  {
  }

  lemma GroupReported(p: Plan, s: Sched, i: nat, ra: RunAfter)
    requires Reported(p, s)
    ensures Reported(p, TakeGroup(p, s, i, ra))
  {
  }

  // --- whole runs

  lemma StartsValid(p: Plan, s: Sched)
    requires p.Valid() && s.runAfter.Keys == p.All() && s == StartSched(s.runAfter)
    ensures Inv(p, s)
  {
    hide Cyclic, Plan.Valid, Placed, Counted, Ordered;
    StartsPlaced(p, s);
    StartsOrdered(p, s);
  }

  lemma StartsOrdered(p: Plan, s: Sched)
    requires s.runAfter.Keys == p.All() && s == StartSched(s.runAfter)
    ensures Ordered(p, s)
  {
    hide Cyclic;
    EmptyAcyclic(Waits(p, s.runAfter));
    assert s.hasrun.Keys == {};
  }

  lemma StartsPlaced(p: Plan, s: Sched)
    requires p.Valid() && s == StartSched(s.runAfter)
    ensures Placed(p, s) && Counted(p, s)
  {
    assert Taken(p, s) == {};
  }

  lemma InvReady(p: Plan, s: Sched)
    requires Inv(p, s) && s.Chosen()
    ensures Ready(p, s, s.current[0])
  {
    ChosenReady(p, s);
  }

  lemma MainStepKeeps(p: Plan, s: Sched, r: Sched)
    requires Inv(p, s) && MainStep(p, s, r)
    ensures Inv(p, r)
  {
    hide Inv, Ready, HandsOut, Sched.Blocked, OnlyMore, GetOut, Pop, Clear, Dispatch, SkipTask, Break, Postpone,
         TakeFrozen, RetryFrozen, TakeGroup;
    if s.Chosen() {
      InvReady(p, s);
    }
    hide Sched.Chosen;
    if Collects(p, s) && r == GetOut(p, s) {
      GetOutKeeps(p, s);
    } else if s.outstanding != [] && s.current == [] && r == Pop(s) {
      PopKeeps(p, s);
    } else if !s.stop && r == Clear(s) {
      ClearKeeps(p, s);
    } else if |s.current| == 1 && s.Chosen() && s.count <= p.numjobs * GAP && r == Dispatch(s) {
      DispatchKeeps(p, s);
    } else if |s.current| == 1 && s.Chosen() && s.current[0] in p.more && r == SkipTask(p, s) {
      SkipKeeps(p, s);
    } else if r == TakeFrozen(s) {
      TakeFrozenKeeps(p, s);
    } else if s.count == 0 && r == RetryFrozen(s) {
      RetryFrozenKeeps(p, s);
    } else {
      MainStepKeepsToo(p, s, r);
    }
  }

  lemma MainStepKeepsToo(p: Plan, s: Sched, r: Sched)
    requires Inv(p, s)
    requires
      || (|s.current| == 1 && Ready(p, s, s.current[0]) && exists verbose :: r == Break(p, s, verbose))
      || (|s.current| == 1 && (s.deadlock == Some(s.processed) ==> s.Blocked(s.current[0]))
          && exists front :: r == Postpone(s, front))
      || (s.frozen == [] && s.current == [] && s.count == 0 && OnlyMore(p, s)
          && exists i, ra :: HandsOut(p, s, i, ra) && r == TakeGroup(p, s, i, ra))
    ensures Inv(p, r)
  {
    hide Inv, Ready, HandsOut, Sched.Blocked, OnlyMore, Break, Postpone, TakeGroup;
    if |s.current| == 1 {
      if front :| r == Postpone(s, front) && (s.deadlock == Some(s.processed) ==> s.Blocked(s.current[0])) {
        PostponeKeeps(p, s, front);
      } else {
        var verbose :| r == Break(p, s, verbose);
        BreakKeeps(p, s, verbose);
      }
    } else {
      var i, ra :| HandsOut(p, s, i, ra) && r == TakeGroup(p, s, i, ra);
      TakeGroupKeeps(p, s, i, ra);
    }
  }

  /** The invariant holds at every point of every build. */
  lemma {:induction false} EveryRunKeepsInv(p: Plan, run: seq<Sched>, i: nat)
    requires p.Valid() && Run(p, run) && i < |run|
    ensures Inv(p, run[i])
    decreases i
  {
    hide Inv, WorkerStep, MainStep;
    if i == 0 {
      StartsValid(p, run[0]);
    } else {
      EveryRunKeepsInv(p, run, i - 1);
      assert Next(p, run[i - 1], run[i - 1 + 1]);
      if WorkerStep(p, run[i - 1], run[i]) {
        WorkerStepKeeps(p, run[i - 1], run[i]);
      } else {
        MainStepKeeps(p, run[i - 1], run[i]);
      }
    }
  }
}
