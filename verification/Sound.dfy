/** When a command can be given the output of a task that failed: only while a worker is between recording
    the failure and stopping the build, or when the build is told to keep going. */
module Sound {
  import opened Basics
  import opened TaskOrder
  import opened Schedule
  import opened ScheduleProofs
  import opened Deadlock
  import opened Signatures
  import opened Incremental

  /** In a build that stops at the first error and has not stopped, what is done is good, but for tasks
      whose failure is still being dealt with. */
  ghost predicate NoneFailed(p: Plan, s: Sched) {
    p.keep == 0 && !s.stop ==> forall t :: StageOf(s.log, t).Done? ==> Good(s.log, t) || t in s.failed
  }

  lemma EventKeepsNone(p: Plan, s: Sched, r: Sched, e: Event)
    requires NoneFailed(p, s) && r.log == s.log + [e] && (s.stop ==> r.stop)
    requires forall t :: t in s.failed ==> t in r.failed
    requires p.keep == 0 && !r.stop ==>
      match e case End(t, st) => st == Success || t in r.failed case Broke(_, _) => false case _ => true
    ensures NoneFailed(p, r)
  {
    StageAfter(s.log, e);
    GoodAfter(s.log, e);
  }

  ghost predicate Quiet(s: Sched, r: Sched) {
    r.log == s.log && r.failed == s.failed && r.stop == s.stop
  }

  lemma WorkerLogs(p: Plan, s: Sched, t: Task, st: Status)
    ensures s.ready != [] ==> Quiet(s, Fetch(s))
    ensures s.stop ==> Quiet(s, Enter(s, t))
    ensures !s.stop ==> var r := Enter(s, t); r.log == s.log + [Begin(t)] && r.failed == s.failed && r.stop == s.stop
    ensures var r := Finish(s, t, st);
      r.log == s.log + [End(t, st)] && s.failed <= r.failed && r.stop == s.stop && (st == Success || t in r.failed)
    ensures var r := RaiseStop(p, s, t); r.log == s.log && (p.keep == 0 ==> r.stop)
    ensures Quiet(s, Report(s, t)) && Quiet(s, HandBack(s, t))
  {
  }

  lemma MainLogs(p: Plan, s: Sched, front: bool, verbose: bool, i: nat, ra: RunAfter)
    ensures s.out != [] && s.out[0] in p.more ==> Quiet(s, GetOut(p, s))
    ensures s.outstanding != [] ==> Quiet(s, Pop(s))
    ensures |s.current| == 1 ==> var r := Dispatch(s);
      r.log == s.log + [Queue(s.current[0])] && r.failed == s.failed && r.stop == s.stop
    ensures |s.current| == 1 ==> Quiet(s, Postpone(s, front))
    ensures |s.current| == 1 && s.current[0] in p.more ==>
      var r := SkipTask(p, s); r.log == s.log + [Skip(s.current[0])] && r.failed == s.failed && r.stop == s.stop
    ensures |s.current| == 1 ==>
      var r := Break(p, s, verbose);
        (p.keep == 0 ==> r.stop) && |r.log| > 0 && r.log == s.log + [r.log[|r.log| - 1]] && r.log[|r.log| - 1].Broke?
    ensures Quiet(s, TakeFrozen(s)) && Quiet(s, RetryFrozen(s)) && Quiet(s, TakeGroup(p, s, i, ra))
  {
    hide GetOut, Pop, Dispatch, Postpone, SkipTask, Break, TakeFrozen, RetryFrozen, TakeGroup, Quiet;
    QueueLogs(p, s, front, i, ra);
    DecideLogs(p, s);
    BreakLogs(p, s, verbose);
  }

  lemma QueueLogs(p: Plan, s: Sched, front: bool, i: nat, ra: RunAfter)
    ensures s.out != [] && s.out[0] in p.more ==> Quiet(s, GetOut(p, s))
    ensures s.outstanding != [] ==> Quiet(s, Pop(s))
    ensures |s.current| == 1 ==> Quiet(s, Postpone(s, front))
    ensures Quiet(s, TakeFrozen(s)) && Quiet(s, RetryFrozen(s)) && Quiet(s, TakeGroup(p, s, i, ra))
  {
  }

  lemma DecideLogs(p: Plan, s: Sched)
    ensures |s.current| == 1 ==> var r := Dispatch(s);
      r.log == s.log + [Queue(s.current[0])] && r.failed == s.failed && r.stop == s.stop
    ensures |s.current| == 1 && s.current[0] in p.more ==>
      var r := SkipTask(p, s); r.log == s.log + [Skip(s.current[0])] && r.failed == s.failed && r.stop == s.stop
  {
  }

  lemma BreakLogs(p: Plan, s: Sched, verbose: bool)
    ensures |s.current| == 1 ==>
      var r := Break(p, s, verbose);
        (p.keep == 0 ==> r.stop) && |r.log| > 0 && r.log == s.log + [r.log[|r.log| - 1]] && r.log[|r.log| - 1].Broke?
  {
  }

  lemma WorkerKeepsNone(p: Plan, s: Sched, r: Sched)
    requires NoneFailed(p, s) && WorkerStep(p, s, r)
    ensures NoneFailed(p, r)
  {
    hide NoneFailed, Fetch, Enter, Finish, RaiseStop, Report, HandBack, Sched.Workers;
    WorkerLogs(p, s, 0, Success);
    if t :| t in s.fetched && r == Enter(s, t) {
      WorkerLogs(p, s, t, Success);
      if s.stop {
        SameKeepsNone(p, s, r);
      } else {
        EventKeepsNone(p, s, r, Begin(t));
      }
    } else if t, st :| t in s.running && st != Skipped && r == Finish(s, t, st) {
      WorkerLogs(p, s, t, st);
      EventKeepsNone(p, s, r, End(t, st));
    } else if t :| t in s.failed && r == RaiseStop(p, s, t) {
      WorkerLogs(p, s, t, Success);
      StoppedHasNone(p, s, r);
    } else if t :| t in s.stopping && r == Report(s, t) {
      WorkerLogs(p, s, t, Success);
      SameKeepsNone(p, s, r);
    } else if t :| t in s.returning && r == HandBack(s, t) {
      WorkerLogs(p, s, t, Success);
      SameKeepsNone(p, s, r);
    } else {
      SameKeepsNone(p, s, r);
    }
  }

  lemma SameKeepsNone(p: Plan, s: Sched, r: Sched)
    requires NoneFailed(p, s) && Quiet(s, r)
    ensures NoneFailed(p, r)
  {
  }

  lemma StoppedHasNone(p: Plan, s: Sched, r: Sched)
    requires p.keep == 0 ==> r.stop
    ensures NoneFailed(p, r)
  {
  }

  lemma MainKeepsNone(p: Plan, s: Sched, r: Sched)
    requires NoneFailed(p, s) && MainStep(p, s, r)
    ensures NoneFailed(p, r)
  {
    hide NoneFailed, Ready, HandsOut, Sched.Blocked, Plan.NoMore, Quiet, GetOut, Pop, Dispatch, Postpone, SkipTask,
         Break, TakeFrozen, RetryFrozen, TakeGroup;
    MainLogs(p, s, true, true, 0, map[]);
    if |s.current| == 1 && r == Dispatch(s) {
      EventKeepsNone(p, s, r, Queue(s.current[0]));
    } else if |s.current| == 1 && s.current[0] in p.more && r == SkipTask(p, s) {
      EventKeepsNone(p, s, r, Skip(s.current[0]));
    } else if verbose :| |s.current| == 1 && r == Break(p, s, verbose) {
      MainLogs(p, s, true, verbose, 0, map[]);
      StoppedHasNone(p, s, r);
    } else if front :| |s.current| == 1 && r == Postpone(s, front) {
      MainLogs(p, s, front, true, 0, map[]);
      SameKeepsNone(p, s, r);
    } else if i, ra :| HandsOut(p, s, i, ra) && r == TakeGroup(p, s, i, ra) {
      MainLogs(p, s, true, true, i, ra);
      SameKeepsNone(p, s, r);
    } else {
      SameKeepsNone(p, s, r);
    }
  }

  lemma {:induction false} RunKeepsNone(p: Plan, run: seq<Sched>, i: nat)
    requires Run(p, run) && i < |run|
    ensures NoneFailed(p, run[i])
    decreases i
  {
    hide WorkerStep, MainStep;
    if i > 0 {
      RunKeepsNone(p, run, i - 1);
      assert Next(p, run[i - 1], run[i - 1 + 1]);
      if WorkerStep(p, run[i - 1], run[i]) {
        WorkerKeepsNone(p, run[i - 1], run[i]);
      } else {
        MainKeepsNone(p, run[i - 1], run[i]);
      }
    }
  }

  /** A command that starts with no failure being dealt with starts on good inputs. */
  lemma BeginIsSound(p: Plan, s: Sched, sc: Script, t: Task)
    requires Inv(p, s) && NoneFailed(p, s) && ProducersInOrder(p, sc)
    requires p.keep == 0 && !s.stop && s.failed == {} && t in s.fetched
    ensures InputsGood(sc, s.log, t)
  {
    hide Inv, NoneFailed, Feeds, Precedes, Plan.NoMore;
    FetchedDecided(p, s, t);
    forall q | Feeds(sc, q, t)
      ensures Good(s.log, q)
    {
      assert s.log[..|s.log|] == s.log;
      ProducerEndsFirst(p, s, q, t, |s.log|);
      DoneIsGood(p, s, q);
    }
  }

  lemma FetchedDecided(p: Plan, s: Sched, t: Task)
    requires Inv(p, s) && t in s.fetched
    ensures StageOf(s.log, t) == Queued
  {
  }

  lemma DoneIsGood(p: Plan, s: Sched, q: Task)
    requires NoneFailed(p, s) && p.keep == 0 && !s.stop && s.failed == {} && StageOf(s.log, q).Done?
    ensures Good(s.log, q)
  {
  }

  /** A task stays good. */
  lemma {:induction false} GoodStays(log: seq<Event>, q: Task, j: nat, i: nat)
    requires Lifecycle(log) && j <= i <= |log| && Good(log[..j], q)
    ensures Good(log[..i], q)
    decreases i - j
  {
    if j < i {
      GoodStays(log, q, j, i - 1);
      GoodIsDone(log[..i - 1], q);
      assert InStage(log[..i - 1], log[i - 1]);
      assert log[..i] == log[..i - 1] + [log[i - 1]];
      GoodAfter(log[..i - 1], log[i - 1]);
    }
  }

  // --- whole builds

  /** Wherever a command starts, its inputs are good. */
  ghost predicate BegunWell(sc: Script, log: seq<Event>) {
    forall j :: 0 <= j < |log| && log[j].Begin? ==> InputsGood(sc, log[..j], log[j].task)
  }

  lemma BegunMore(sc: Script, log: seq<Event>, e: Event)
    requires BegunWell(sc, log) && (e.Begin? ==> InputsGood(sc, log, e.task))
    ensures BegunWell(sc, log + [e])
  {
    var l := log + [e];
    forall j | 0 <= j < |l| && l[j].Begin?
      ensures InputsGood(sc, l[..j], l[j].task)
    {
      assert l[..j] == log[..j];
      assert log[..|log|] == log;
    }
  }

  /** The task of an end has begun. */
  lemma {:induction false} BeganBefore(log: seq<Event>, t: Task) returns (j: nat)
    requires Lifecycle(log) && StageOf(log, t) == Started
    ensures j < |log| && log[j] == Begin(t)
    decreases |log|
  {
    var n := |log| - 1;
    if log[n].task == t {
      j := n;
    } else {
      LifecyclePrefix(log, n);
      j := BeganBefore(log[..n], t);
    }
  }

  lemma BegunRunsSound(sc: Script, log: seq<Event>)
    requires Lifecycle(log) && BegunWell(sc, log)
    ensures SoundRuns(sc, log)
  {
    forall i | 0 <= i < |log| && log[i].End?
      ensures SoundRun(sc, log[..i], log[i])
    {
      var t := log[i].task;
      assert InStage(log[..i], log[i]);
      LifecyclePrefix(log, i);
      var j := BeganBefore(log[..i], t);
      assert log[j] == Begin(t) && InputsGood(sc, log[..j], t);
      forall q | Feeds(sc, q, t)
        ensures Good(log[..i], q)
      {
        GoodStays(log, q, j, i);
      }
    }
  }

  /** No command starts while a failure is being dealt with. */
  ghost predicate NoRace(run: seq<Sched>) {
    forall i, t :: 0 <= i < |run| - 1 && t in run[i].fetched && run[i + 1] == Enter(run[i], t) && !run[i].stop ==>
      run[i].failed == {}
  }

  lemma StepBegins(p: Plan, s: Sched, r: Sched, sc: Script)
    requires Next(p, s, r) && Inv(p, s) && NoneFailed(p, s) && ProducersInOrder(p, sc) && p.keep == 0
    requires forall t :: t in s.fetched && r == Enter(s, t) && !s.stop ==> s.failed == {}
    requires BegunWell(sc, s.log)
    ensures BegunWell(sc, r.log)
  {
    hide Inv, NoneFailed, BegunWell, ProducersInOrder, InputsGood, WorkerStep, MainStep;
    if WorkerStep(p, s, r) {
      WorkerEvent(p, s, r);
      if t :| t in s.fetched && r == Enter(s, t) && !s.stop {
        BeginIsSound(p, s, sc, t);
        BegunMore(sc, s.log, Begin(t));
      } else if r.log != s.log {
        var e :| r.log == s.log + [e] && !e.Begin?;
        BegunMore(sc, s.log, e);
      }
    } else {
      MainEvent(p, s, r);
      if r.log != s.log {
        var e :| r.log == s.log + [e] && !e.Begin?;
        BegunMore(sc, s.log, e);
      }
    }
  }

  ghost predicate NoBegin(s: Sched, r: Sched) {
    r.log == s.log || exists e :: r.log == s.log + [e] && !e.Begin?
  }

  lemma WorkerEvent(p: Plan, s: Sched, r: Sched)
    requires WorkerStep(p, s, r)
    ensures (exists t :: t in s.fetched && r == Enter(s, t) && !s.stop) || NoBegin(s, r)
  {
    hide Fetch, Enter, Finish, RaiseStop, Report, HandBack, Sched.Workers;
    WorkerLogs(p, s, 0, Success);
    if t :| t in s.fetched && r == Enter(s, t) {
      WorkerLogs(p, s, t, Success);
    } else if t, st :| t in s.running && st != Skipped && r == Finish(s, t, st) {
      WorkerLogs(p, s, t, st);
    } else if t :| t in s.failed && r == RaiseStop(p, s, t) {
      WorkerLogs(p, s, t, Success);
    } else if t :| t in s.stopping && r == Report(s, t) {
      WorkerLogs(p, s, t, Success);
    } else if t :| t in s.returning && r == HandBack(s, t) {
      WorkerLogs(p, s, t, Success);
    }
  }

  lemma MainEvent(p: Plan, s: Sched, r: Sched)
    requires MainStep(p, s, r)
    ensures NoBegin(s, r)
  {
    hide Ready, HandsOut, Sched.Blocked, Plan.NoMore, GetOut, Pop, Dispatch, Postpone, SkipTask, Break, TakeFrozen,
         RetryFrozen, TakeGroup;
    MainLogs(p, s, true, true, 0, map[]);
    if verbose :| |s.current| == 1 && r == Break(p, s, verbose) {
      MainLogs(p, s, true, verbose, 0, map[]);
    } else if front :| |s.current| == 1 && r == Postpone(s, front) {
      MainLogs(p, s, front, true, 0, map[]);
    } else if i, ra :| HandsOut(p, s, i, ra) && r == TakeGroup(p, s, i, ra) {
      MainLogs(p, s, true, true, i, ra);
    }
  }

  lemma {:induction false} RunBegunWell(p: Plan, run: seq<Sched>, sc: Script, i: nat)
    requires p.Valid() && Run(p, run) && i < |run| && p.keep == 0 && ProducersInOrder(p, sc) && NoRace(run)
    ensures BegunWell(sc, run[i].log)
    decreases i
  {
    hide Inv, NoneFailed, WorkerStep, MainStep, ProducersInOrder, InputsGood;
    if i > 0 {
      RunBegunWell(p, run, sc, i - 1);
      EveryRunKeepsInv(p, run, i - 1);
      RunKeepsNone(p, run, i - 1);
      assert Next(p, run[i - 1], run[i - 1 + 1]);
      StepBegins(p, run[i - 1], run[i], sc);
    }
  }

  /** A build that stops at the first error, and in which no command starts just then, never uses the output
      of a failed task: its log is one incremental builds may rely on. */
  lemma StoppingBuildIsSound(p: Plan, run: seq<Sched>, sc: Script, i: nat)
    requires p.Valid() && Run(p, run) && i < |run| && p.keep == 0 && ProducersInOrder(p, sc) && NoRace(run)
    ensures Lifecycle(run[i].log) && InputsFirst(sc, run[i].log) && SoundRuns(sc, run[i].log)
  {
    EveryRunKeepsInv(p, run, i);
    RunBegunWell(p, run, sc, i);
    SchedulerPutsInputsFirst(p, run[i], sc);
    BegunRunsSound(sc, run[i].log);
  }

  lemma AloneNoFailure(p: Plan, s: Sched, t: Task)
    requires Inv(p, s) && p.numjobs == 1 && t in s.fetched
    ensures s.failed == {}
  {
  }

  /** With a single worker that is every build that stops at the first error. */
  lemma OneJobIsSound(p: Plan, run: seq<Sched>, sc: Script, i: nat)
    requires p.Valid() && Run(p, run) && i < |run| && p.keep == 0 && p.numjobs == 1 && ProducersInOrder(p, sc)
    ensures Lifecycle(run[i].log) && InputsFirst(sc, run[i].log) && SoundRuns(sc, run[i].log)
  {
    hide Inv, Run, ProducersInOrder;
    forall k, t | 0 <= k < |run| - 1 && t in run[k].fetched && run[k + 1] == Enter(run[k], t) && !run[k].stop
      ensures run[k].failed == {}
    {
      EveryRunKeepsInv(p, run, k);
      AloneNoFailure(p, run[k], t);
    }
    StoppingBuildIsSound(p, run, sc, i);
  }

  /** The log of a build that stops at the first error and has one job. */
  ghost predicate OneJobLog(p: Plan, run: seq<Sched>, i: nat, sc: Script, log: seq<Event>) {
    && p.Valid() && p.keep == 0 && p.numjobs == 1 && ProducersInOrder(p, sc)
    && Run(p, run) && i < |run| && log == run[i].log
  }

  ghost predicate OneJob(s: Session) {
    exists p, run, i :: OneJobLog(p, run, i, s.sc, s.log)
  }

  lemma OneJobCareful(h: seq<Session>)
    requires forall i :: 0 <= i < |h| ==> h[i].ErrorFree() || OneJob(h[i])
    ensures Careful(h)
  {
    hide Session.ErrorFree, SoundRuns;
    forall i | 0 <= i < |h| && OneJob(h[i])
      ensures SoundRuns(h[i].sc, h[i].log)
    {
      var p, run, j :| OneJobLog(p, run, j, h[i].sc, h[i].log);
      OneJobIsSound(p, run, h[i].sc, j);
    }
  }

  /** From end to end: when every build that did not end without an error stopped at the first one and had one job,
      an error-free incremental build gives what a clean build gives, with any number of jobs. */
  lemma OneJobEqualsClean(f: Tool, h: seq<Session>, s: Session, clean: Session, t: Task)
    requires Builds(f, h) && NoReturn(h) && EndsWith(h, s) && s.ErrorFree() && Builds(f, [clean])
    requires forall i :: 0 <= i < |h| ==> h[i].ErrorFree() || OneJob(h[i])
    requires clean.ErrorFree() && clean.sc == s.sc && t in s.sc.info
    requires s.states != [] && clean.states != [] && SameSources(s.sc, s.After().files, clean.After().files)
    ensures s.sc.OneOutput(t) && s.sc.Out(t) in s.After().files && s.sc.Out(t) in clean.After().files
    ensures s.After().files[s.sc.Out(t)] == clean.After().files[s.sc.Out(t)]
  {
    hide OneJob, Builds, Careful, NoReturn, SameSources, Session.ErrorFree;
    OneJobCareful(h);
    IncrementalEqualsClean(f, h, s, clean, t);
  }
}
