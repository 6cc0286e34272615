/** The builds of a plan: the snapshots that whole runs can get to, and what they say about failures. */
module Runs {
  import opened Basics
  import opened TaskOrder
  import opened Schedule
  import opened ScheduleProofs

  ghost predicate Reachable(p: Plan, s: Sched) {
    exists run :: Run(p, run) && run[|run| - 1] == s
  }

  lemma Starts(p: Plan, ra: RunAfter)
    requires ra.Keys == p.All()
    ensures Reachable(p, StartSched(ra))
  {
    assert Run(p, [StartSched(ra)]);
  }

  lemma Goes(p: Plan, s: Sched, r: Sched)
    requires Reachable(p, s) && Next(p, s, r)
    ensures Reachable(p, r)
  {
    hide Next, StartSched;
    var run := RunTo(p, s);
    var more := run + [r];
    forall i | 0 <= i < |more| - 1
      ensures Next(p, more[i], more[i + 1])
    {
      if i < |run| - 1 {
        assert Next(p, run[i], run[i + 1]);
      }
    }
    assert Run(p, more) && more[|more| - 1] == r;
  }

  lemma ReachableInv(p: Plan, s: Sched)
    requires p.Valid() && Reachable(p, s)
    ensures Inv(p, s)
  {
    hide Inv;
    var run := RunTo(p, s);
    EveryRunKeepsInv(p, run, |run| - 1);
  }

  lemma RunTo(p: Plan, s: Sched) returns (run: seq<Sched>)
    requires Reachable(p, s)
    ensures Run(p, run) && |run| > 0 && run[|run| - 1] == s
  {
    run :| Run(p, run) && run[|run| - 1] == s;
  }

  /** With one job the main thread waits for its worker. */
  ghost predicate Free(p: Plan, s: Sched) {
    p.numjobs == 1 ==> s.ready == [] && s.Busy() == {}
  }

  lemma Mains(p: Plan, s: Sched, r: Sched)
    requires Reachable(p, s) && MainStep(p, s, r) && Free(p, s)
    ensures Reachable(p, r)
  {
    hide Reachable, MainStep;
    Goes(p, s, r);
  }

  lemma Workers(p: Plan, s: Sched, r: Sched)
    requires Reachable(p, s) && WorkerStep(p, s, r)
    ensures Reachable(p, r)
  {
    hide Reachable, WorkerStep;
    Goes(p, s, r);
  }

  // --- failures

  predicate Bad(st: Status) {
    st == Missing || st == Crashed || st == Raised
  }

  /** Something has gone wrong that `keep` does not let the build go on with: with `keep == 0` a task that
      failed, with `keep == 1` one whose `runnable_status` raised. */
  ghost predicate Cause(p: Plan, s: Sched) {
    || (p.keep == 0 && exists t :: t in s.hasrun && Bad(s.hasrun[t]))
    || (p.keep == 1 && s.broken != {})
  }

  /** `stop` is set for a cause, and a build that is to stop at the first failure goes on only until the error
      handler comes to it. */
  ghost predicate Justified(p: Plan, s: Sched) {
    && (s.stop ==> Cause(p, s))
    && (p.keep == 0 && !s.stop ==> forall t :: t in s.hasrun && Bad(s.hasrun[t]) ==> t in s.failed)
  }

  /** Every failed task is in the hands of the error handler or on record, and nothing else is. */
  ghost predicate Recorded(s: Sched) {
    && (forall t :: t in s.hasrun && Bad(s.hasrun[t]) ==> t in s.failed || t in s.stopping || t in s.error)
    && (forall t :: t in s.error ==> t in s.hasrun && (Bad(s.hasrun[t]) || t in s.broken))
    && (forall t :: t in s.error ==> t !in s.failed && t !in s.stopping)
    && NoDup(s.error)
  }

  /** `stop` is never set without an error on record or about to be recorded. */
  ghost predicate Noted(p: Plan, s: Sched) {
    && (s.stop ==> s.error != [] || s.stopping != {})
    && (p.keep < 2 && s.broken != {} ==> s.error != [])
  }

  ghost predicate Accounted(p: Plan, s: Sched) {
    Justified(p, s) && Recorded(s) && Noted(p, s)
  }

  /** The parts of a snapshot that `Accounted` speaks of stay. */
  ghost predicate SameAccount(s: Sched, r: Sched) {
    && r.stop == s.stop && r.error == s.error && r.stopping == s.stopping && r.failed == s.failed
    && r.hasrun == s.hasrun && r.broken == s.broken
  }

  lemma SameAccounted(p: Plan, s: Sched, r: Sched)
    requires Accounted(p, s) && SameAccount(s, r)
    ensures Accounted(p, r)
  {
  }

  lemma RunningFresh(p: Plan, s: Sched, t: Task)
    requires Inv(p, s) && t in s.running
    ensures t !in s.hasrun && t !in s.failed && t !in s.stopping && t !in s.broken
  {
    hide Counted, Ordered, Logged, Constrained, Barrier, Cleared, Stalled, Plan.Valid;
    OnePlace(p, s, t);
  }

  lemma StoppingOnce(p: Plan, s: Sched, t: Task)
    requires Inv(p, s) && t in s.stopping
    ensures t in s.hasrun && t !in s.failed && Bad(s.hasrun[t])
  {
    hide Counted, Ordered, Logged, Constrained, Barrier, Cleared, Stalled, Plan.Valid;
    OnePlace(p, s, t);
  }

  lemma FailedBad(p: Plan, s: Sched, t: Task)
    requires Inv(p, s) && t in s.failed
    ensures t in s.hasrun && Bad(s.hasrun[t])
  {
    hide Placed, Counted, Ordered, Logged, Constrained, Barrier, Cleared, Stalled, Plan.Valid;
  }

  lemma CurrentFresh(p: Plan, s: Sched, t: Task)
    requires Inv(p, s) && s.current == [t]
    ensures t !in s.hasrun && t !in s.failed && t !in s.stopping && t !in s.broken
  {
    hide Counted, Ordered, Logged, Constrained, Barrier, Cleared, Stalled, Plan.Valid;
    OnePlace(p, s, t);
  }

  lemma FinishAccounted(p: Plan, s: Sched, t: Task, st: Status)
    requires Accounted(p, s) && t !in s.hasrun && t !in s.failed && t !in s.stopping && st != Skipped
    ensures Accounted(p, Finish(s, t, st))
  {
    FinishJustified(p, s, t, st);
    FinishRecorded(s, t, st);
    hide Justified, Recorded;
  }

  lemma FinishJustified(p: Plan, s: Sched, t: Task, st: Status)
    requires Justified(p, s) && t !in s.hasrun && st != Skipped
    ensures Justified(p, Finish(s, t, st))
  {
    CauseStays(p, s, Finish(s, t, st));
    hide Cause;
  }

  lemma FinishRecorded(s: Sched, t: Task, st: Status)
    requires Recorded(s) && t !in s.hasrun && t !in s.failed && t !in s.stopping && st != Skipped
    ensures Recorded(Finish(s, t, st))
  {
    assert t !in s.error;
  }

  lemma CauseStays(p: Plan, s: Sched, r: Sched)
    requires forall t :: t in s.hasrun ==> t in r.hasrun && r.hasrun[t] == s.hasrun[t]
    requires s.broken <= r.broken
    ensures Cause(p, s) ==> Cause(p, r)
  {
  }

  lemma RaiseStopAccounted(p: Plan, s: Sched, t: Task)
    requires Accounted(p, s) && t in s.failed && t in s.hasrun && Bad(s.hasrun[t])
    ensures Accounted(p, RaiseStop(p, s, t))
  {
    assert t in RaiseStop(p, s, t).stopping;
  }

  lemma ReportAccounted(p: Plan, s: Sched, t: Task)
    requires Accounted(p, s) && t in s.stopping && t in s.hasrun && t !in s.failed && Bad(s.hasrun[t])
    ensures Accounted(p, Report(s, t))
  {
    var r := Report(s, t);
    assert r.error[|s.error|] == t;
    assert forall q :: q in r.error <==> q in s.error || q == t;
  }

  lemma SkipAccounted(p: Plan, s: Sched)
    requires Accounted(p, s) && |s.current| == 1 && s.current[0] in p.more && s.current[0] !in s.hasrun
    ensures Accounted(p, SkipTask(p, s))
  {
    CauseStays(p, s, SkipTask(p, s));
    hide Cause;
    assert s.current[0] !in s.error;
  }

  lemma BreakAccounted(p: Plan, s: Sched, verbose: bool)
    requires Accounted(p, s) && |s.current| == 1
    requires s.current[0] !in s.hasrun && s.current[0] !in s.failed && s.current[0] !in s.stopping
    ensures Accounted(p, Break(p, s, verbose))
  {
    BreakJustified(p, s, verbose);
    BreakRecorded(p, s, verbose);
    hide Justified, Recorded;
  }

  lemma BreakJustified(p: Plan, s: Sched, verbose: bool)
    requires Justified(p, s) && |s.current| == 1 && s.current[0] !in s.hasrun
    ensures Justified(p, Break(p, s, verbose))
  {
    var t, r := s.current[0], Break(p, s, verbose);
    CauseStays(p, s, r);
    assert t in r.hasrun && t in r.broken;
  }

  lemma BreakRecorded(p: Plan, s: Sched, verbose: bool)
    requires Recorded(s) && |s.current| == 1
    requires s.current[0] !in s.hasrun && s.current[0] !in s.failed && s.current[0] !in s.stopping
    ensures Recorded(Break(p, s, verbose))
  {
    var t, r := s.current[0], Break(p, s, verbose);
    assert t !in s.error;
    assert forall q :: q in s.error + [t] <==> q in s.error || q == t;
  }

  lemma WorkerAccounted(p: Plan, s: Sched, r: Sched)
    requires Inv(p, s) && Accounted(p, s) && WorkerStep(p, s, r)
    ensures Accounted(p, r)
  {
    hide Inv, Accounted, Bad;
    if s.ready != [] && r == Fetch(s) {
      SameAccounted(p, s, r);
    } else if t :| t in s.fetched && r == Enter(s, t) {
      SameAccounted(p, s, r);
    } else if t, st :| t in s.running && st != Skipped && r == Finish(s, t, st) {
      RunningFresh(p, s, t);
      FinishAccounted(p, s, t, st);
    } else if t :| t in s.failed && r == RaiseStop(p, s, t) {
      FailedBad(p, s, t);
      RaiseStopAccounted(p, s, t);
    } else if t :| t in s.stopping && r == Report(s, t) {
      StoppingOnce(p, s, t);
      ReportAccounted(p, s, t);
    } else {
      var t :| t in s.returning && r == HandBack(s, t);
      SameAccounted(p, s, r);
    }
  }

  lemma MainAccounted(p: Plan, s: Sched, r: Sched)
    requires Inv(p, s) && Accounted(p, s) && MainStep(p, s, r)
    ensures Accounted(p, r)
  {
    ChosenHasCurrent(s);
    CollectsOut(p, s);
    hide Inv, Accounted, HandsOut, OnlyMore, Collects, Sched.Blocked, Sched.Chosen, GetOut, Pop, Clear, Dispatch,
         SkipTask, Break, Postpone, TakeFrozen, RetryFrozen, TakeGroup, SameAccount;
    if |s.current| == 1 && s.current[0] in p.more && r == SkipTask(p, s) {
      CurrentFresh(p, s, s.current[0]);
      SkipAccounted(p, s);
    } else if |s.current| == 1 && exists verbose :: r == Break(p, s, verbose) {
      var verbose :| r == Break(p, s, verbose);
      CurrentFresh(p, s, s.current[0]);
      BreakAccounted(p, s, verbose);
    } else if front :| |s.current| == 1 && r == Postpone(s, front) {
      PostponeAccount(s, front);
      SameAccounted(p, s, r);
    } else if i, ra :| HandsOut(p, s, i, ra) && r == TakeGroup(p, s, i, ra) {
      GroupAccount(p, s, i, ra);
      SameAccounted(p, s, r);
    } else {
      QuietAccount(p, s);
      SameAccounted(p, s, r);
    }
  }

  // The steps that have nothing to do with failures.

  lemma PostponeAccount(s: Sched, front: bool)
    requires |s.current| == 1
    ensures SameAccount(s, Postpone(s, front))
  {
  }

  lemma GroupAccount(p: Plan, s: Sched, i: nat, ra: RunAfter)
    ensures SameAccount(s, TakeGroup(p, s, i, ra))
  {
  }

  lemma QuietAccount(p: Plan, s: Sched)
    ensures s.out != [] && s.out[0] in p.more ==> SameAccount(s, GetOut(p, s))
    ensures s.outstanding != [] ==> SameAccount(s, Pop(s))
    ensures SameAccount(s, Clear(s)) && SameAccount(s, TakeFrozen(s)) && SameAccount(s, RetryFrozen(s))
    ensures |s.current| == 1 ==> SameAccount(s, Dispatch(s))
  {
  }

  lemma ChosenHasCurrent(s: Sched)
    ensures s.Chosen() ==> |s.current| == 1
  {
  }

  lemma CollectsOut(p: Plan, s: Sched)
    ensures Collects(p, s) ==> s.out != [] && s.out[0] in p.more
  {
  }

  lemma {:induction false} EveryRunAccounts(p: Plan, run: seq<Sched>, i: nat)
    requires p.Valid() && Run(p, run) && i < |run|
    ensures Accounted(p, run[i])
    decreases i
  {
    hide Inv, WorkerStep, MainStep;
    if i > 0 {
      EveryRunAccounts(p, run, i - 1);
      hide Accounted;
      EveryRunKeepsInv(p, run, i - 1);
      assert Next(p, run[i - 1], run[i - 1 + 1]);
      if WorkerStep(p, run[i - 1], run[i]) {
        WorkerAccounted(p, run[i - 1], run[i]);
      } else {
        MainAccounted(p, run[i - 1], run[i]);
      }
    }
  }

  /** In every build, at every moment: why `stop` is set, and which tasks are on record as errors. */
  lemma EveryBuildAccounts(p: Plan, s: Sched)
    requires p.Valid() && Reachable(p, s)
    ensures Accounted(p, s)
  {
    hide Accounted;
    var run := RunTo(p, s);
    EveryRunAccounts(p, run, |run| - 1);
  }

  /** Once nothing is in the hands of the error handler the record is exact, and a build that has `stop` set
      has an error on it. */
  lemma RecordIsExact(p: Plan, s: Sched)
    requires p.Valid() && Reachable(p, s) && s.failed == {} && s.stopping == {}
    ensures forall t :: t in s.hasrun && Bad(s.hasrun[t]) ==> t in s.error
    ensures forall t :: t in s.error ==> t in s.hasrun && (Bad(s.hasrun[t]) || t in s.broken)
    ensures s.stop ==> s.error != []
    ensures p.keep == 0 ==> (s.stop <==> s.error != [])
  {
    EveryBuildAccounts(p, s);
    ReachableInv(p, s);
    hide Inv, Reachable, Plan.Valid;
    if p.keep == 0 && !s.stop {
      NoneBroken(p, s);
      HasFirst(s.error);
    }
  }

  lemma HasFirst<T>(q: seq<T>)
    ensures q != [] ==> q[0] in q
  {
  }

  lemma NoneBroken(p: Plan, s: Sched)
    requires Inv(p, s) && p.keep < 2 && !s.stop
    ensures s.broken == {}
  {
    hide Placed, Counted, Ordered, Logged, Constrained, Barrier, Cleared, Stalled, Plan.Valid;
  }
}
