/** waflib/Runner.py: the scheduler itself. The main thread runs `Start`; the worker threads are the steps
    of `WorkerStep`, any number of which may happen between two accesses of the main thread to shared
    state (`Interfere`). */
module Runner {
  import opened Basics
  import opened Graphs
  import opened TaskOrder
  import opened Schedule
  import opened ScheduleProofs
  import opened Deadlock
  import opened Runs

  datatype RunStatus = RunMe | SkipMe | AskLater | StatusRaised

  // --- what the tasks turn out to do

  type Verdict = st: RunStatus | st != AskLater witness RunMe

  type Ending = st: Status | st != Skipped witness Success

  /** What `runnable_status` says about each task once its `run_after` are done, and how its `run` ends. Each
      is asked for at most once in a build. */
  datatype Will = Will(says: Task -> Verdict, does: Task -> Ending)

  /** The status of a task follows from what it says and does. */
  ghost predicate Truthful(p: Plan, w: Will, s: Sched) {
    && (forall t :: t in s.ready || t in s.fetched || t in s.running ==> w.says(t) == RunMe)
    && (forall t :: t in s.hasrun && w.says(t) == RunMe ==> s.hasrun[t] == w.does(t) && t !in s.broken)
    && (forall t :: t in s.hasrun && w.says(t) == SkipMe ==> s.hasrun[t] == Skipped && t !in s.broken)
    && (forall t :: t in s.hasrun && w.says(t) == StatusRaised ==>
         t in s.broken && (s.hasrun[t] == Raised || (p.keep != 0 && s.hasrun[t] == Skipped)))
    && (!s.stop ==> forall t :: t in s.hasrun && t in s.broken ==> s.hasrun[t] == Skipped)
  }

  /** The status every task has at the end of a build that was not stopped. */
  ghost function Foretold(w: Will, t: Task): Status {
    if w.says(t) == RunMe then w.does(t) else Skipped
  }

  /** No task raises or fails. */
  ghost predicate AllWell(p: Plan, w: Will) {
    forall t :: t in p.origin ==> w.says(t) != StatusRaised && (w.says(t) == RunMe ==> w.does(t) == Success)
  }

  // --- why a build comes to its end

  /** Tasks of the plan whose status is still to be decided. */
  ghost function Left(p: Plan, s: Sched): nat {
    |set t | t in p.origin && !s.Gone(t)|
  }

  /** What the workers and the collection of their answers still have to do for the tasks in flight. */
  ghost function Work(s: Sched): nat {
    7 * |s.ready| + 6 * |s.fetched| + 5 * |s.running| + 4 * |s.failed| + 3 * |s.stopping| + 2 * |s.returning| + |s.out|
  }

  ghost function GroupsLeft(p: Plan, s: Sched): int {
    |p.groups| - s.cur
  }

  /** 0 when the next idle round without progress is a deadlock. */
  ghost function Patience(s: Sched): nat {
    if s.deadlock == Some(s.processed) then 0 else 1
  }

  ghost predicate SameRound(p: Plan, s: Sched, r: Sched) {
    && Left(p, r) == Left(p, s) && Work(r) == Work(s) && GroupsLeft(p, r) == GroupsLeft(p, s)
    && Patience(r) == Patience(s)
  }

  /** `r` is closer to the end of the build than `s`. */
  ghost predicate Closer(p: Plan, s: Sched, r: Sched) {
    || Left(p, r) < Left(p, s)
    || (Left(p, r) == Left(p, s) && Work(r) < Work(s))
    || (Left(p, r) == Left(p, s) && Work(r) == Work(s) && GroupsLeft(p, r) < GroupsLeft(p, s))
    || (Left(p, r) == Left(p, s) && Work(r) == Work(s) && GroupsLeft(p, r) == GroupsLeft(p, s)
        && Patience(r) < Patience(s))
  }

  /** All that the main thread can see of any number of worker steps. */
  ghost predicate Interfered(s: Sched, r: Sched) {
    && r.outstanding == s.outstanding && r.frozen == s.frozen && r.current == s.current && r.retired == s.retired
    && r.cleared == s.cleared && r.expanded == s.expanded && r.broken == s.broken && r.count == s.count
         && r.processed == s.processed
    && r.deadlock == s.deadlock && r.cur == s.cur && r.runAfter == s.runAfter
    && s.hasrun.Keys <= r.hasrun.Keys && (s.stop ==> r.stop)
    && (forall t :: r.Gone(t) <==> s.Gone(t))
    && Work(r) <= Work(s)
    && (s.count == 0 ==> r == s)
  }

  lemma Counts<T>(s: set<T>, t: T)
    ensures t in s ==> |s| == |s - {t}| + 1
    ensures t !in s ==> |s + {t}| == |s| + 1
  {
    if t in s {
      TakeOne(s, t);
    }
  }

  lemma FetchSeen(p: Plan, s: Sched)
    requires Placed(p, s) && Counted(p, s) && Reported(p, s) && s.ready != [] && s.Workers() < p.numjobs
    ensures Interfered(s, Fetch(s)) && Work(Fetch(s)) < Work(s)
  {
    hide Placed, Counted, Reported, Work;
    FetchWork(p, s);
    BusyCounts(p, s);
    assert s.ready == [s.ready[0]] + s.ready[1..];
    assert forall x :: Fetch(s).Gone(x) <==> s.Gone(x);
  }

  lemma FetchWork(p: Plan, s: Sched)
    requires Placed(p, s) && s.ready != []
    ensures Work(Fetch(s)) < Work(s)
  {
    hide Placed;
    OnePlace(p, s, s.ready[0]);
    Counts(s.fetched, s.ready[0]);
  }

  lemma EnterSeen(p: Plan, s: Sched, t: Task)
    requires Placed(p, s) && Counted(p, s) && Reported(p, s) && t in s.fetched
    ensures Interfered(s, Enter(s, t)) && Work(Enter(s, t)) < Work(s)
  {
    hide Placed, Counted, Reported, Work;
    EnterWork(p, s, t);
    BusyCounts(p, s);
    assert forall x :: Enter(s, t).Gone(x) <==> s.Gone(x);
  }

  lemma EnterWork(p: Plan, s: Sched, t: Task)
    requires Placed(p, s) && t in s.fetched
    ensures Work(Enter(s, t)) < Work(s)
  {
    hide Placed;
    OnePlace(p, s, t);
    Counts(s.fetched, t);
    Counts(s.running, t);
  }

  lemma FinishSeen(p: Plan, s: Sched, t: Task, st: Status)
    requires Placed(p, s) && Counted(p, s) && Reported(p, s) && t in s.running && st != Skipped
    ensures Interfered(s, Finish(s, t, st)) && Work(Finish(s, t, st)) < Work(s)
  {
    hide Placed, Counted, Reported;
    var r := Finish(s, t, st);
    BusyCounts(p, s);
    assert forall x :: r.Gone(x) <==> s.Gone(x);
    FinishWork(p, s, t, st);
  }

  lemma FinishWork(p: Plan, s: Sched, t: Task, st: Status)
    requires Placed(p, s) && t in s.running
    ensures Work(Finish(s, t, st)) < Work(s)
  {
    hide Placed;
    OnePlace(p, s, t);
    Counts(s.running, t);
    Counts(s.returning, t);
    Counts(s.failed, t);
  }

  lemma RaiseStopSeen(p: Plan, s: Sched, t: Task)
    requires Placed(p, s) && Counted(p, s) && Reported(p, s) && t in s.failed
    ensures Interfered(s, RaiseStop(p, s, t)) && Work(RaiseStop(p, s, t)) < Work(s)
  {
    hide Placed, Counted, Reported;
    OnePlace(p, s, t);
    Counts(s.failed, t);
    Counts(s.stopping, t);
    BusyCounts(p, s);
    assert forall x :: RaiseStop(p, s, t).Gone(x) <==> s.Gone(x);
  }

  lemma ReportSeen(p: Plan, s: Sched, t: Task)
    requires Placed(p, s) && Counted(p, s) && Reported(p, s) && t in s.stopping
    ensures Interfered(s, Report(s, t)) && Work(Report(s, t)) < Work(s)
  {
    hide Placed, Counted, Reported;
    OnePlace(p, s, t);
    Counts(s.stopping, t);
    Counts(s.returning, t);
    BusyCounts(p, s);
    assert forall x :: Report(s, t).Gone(x) <==> s.Gone(x);
  }

  lemma HandBackSeen(p: Plan, s: Sched, t: Task)
    requires Placed(p, s) && Counted(p, s) && Reported(p, s) && t in s.returning
    ensures Interfered(s, HandBack(s, t)) && Work(HandBack(s, t)) < Work(s)
  {
    hide Placed, Counted, Reported;
    OnePlace(p, s, t);
    Counts(s.returning, t);
    BusyCounts(p, s);
    assert forall x :: HandBack(s, t).Gone(x) <==> s.Gone(x);
  }

  lemma WorkerStepSeen(p: Plan, s: Sched, r: Sched)
    requires Inv(p, s) && WorkerStep(p, s, r)
    ensures Interfered(s, r) && Work(r) < Work(s) && Inv(p, r)
  {
    WorkerStepKeeps(p, s, r);
    hide Placed, Counted, Reported, Ordered, Logged, Constrained, Barrier, Cleared, Stalled, Work, Interfered,
         Plan.Valid;
    if s.ready != [] && s.Workers() < p.numjobs && r == Fetch(s) {
      FetchSeen(p, s);
    } else if t :| t in s.fetched && r == Enter(s, t) {
      EnterSeen(p, s, t);
    } else if t, st :| t in s.running && st != Skipped && r == Finish(s, t, st) {
      FinishSeen(p, s, t, st);
    } else if t :| t in s.failed && r == RaiseStop(p, s, t) {
      RaiseStopSeen(p, s, t);
    } else if t :| t in s.stopping && r == Report(s, t) {
      ReportSeen(p, s, t);
    } else {
      var t :| t in s.returning && r == HandBack(s, t);
      HandBackSeen(p, s, t);
    }
  }

  lemma BusyCounts(p: Plan, s: Sched)
    requires Counted(p, s)
    ensures s.count == 0 <==> s.ready == [] && s.out == [] && s.Busy() == {}
  {
  }

  lemma InterferedTwice(s: Sched, r: Sched, u: Sched)
    requires Interfered(s, r) && Interfered(r, u)
    ensures Interfered(s, u)
  {
  }

  /** What stays of the main thread's view when the workers interfere. */
  lemma InterferedProgress(p: Plan, s: Sched, r: Sched)
    requires Interfered(s, r)
    ensures Left(p, r) == Left(p, s) && GroupsLeft(p, r) == GroupsLeft(p, s) && Patience(r) == Patience(s)
  {
    assert (set t | t in p.origin && !r.Gone(t)) == (set t | t in p.origin && !s.Gone(t));
  }

  // --- the steps of the class are steps of the state machine

  /** A point of a build where the main thread may go on. */
  ghost predicate Sound(p: Plan, w: Will, s: Sched) {
    Inv(p, s) && Reachable(p, s) && Truthful(p, w, s) && Free(p, s)
  }

  lemma WorkerTruthful(p: Plan, w: Will, s: Sched, r: Sched)
    requires Inv(p, s) && Truthful(p, w, s) && WorkerStep(p, s, r)
    requires forall t :: t in r.hasrun && t !in s.hasrun ==> r.hasrun[t] == w.does(t)
    ensures Truthful(p, w, r)
  {
    hide Inv, Truthful, Finish;
    if t, st :| t in s.running && st != Skipped && r == Finish(s, t, st) {
      RunningFresh(p, s, t);
      FinishTruthful(p, w, s, t, st);
    } else {
      OtherTruthful(p, w, s, r);
    }
  }

  lemma FinishTruthful(p: Plan, w: Will, s: Sched, t: Task, st: Status)
    requires Truthful(p, w, s) && t in s.running && t !in s.hasrun && t !in s.broken
    requires forall q :: q in Finish(s, t, st).hasrun && q !in s.hasrun ==> Finish(s, t, st).hasrun[q] == w.does(q)
    ensures Truthful(p, w, Finish(s, t, st))
  {
    var r := Finish(s, t, st);
    assert t in r.hasrun;
  }

  /** No task is newly queued, and nothing about the tasks that are done changes. */
  ghost predicate NoneNew(s: Sched, r: Sched) {
    && (forall t :: t in r.ready || t in r.fetched || t in r.running ==>
        t in s.ready || t in s.fetched || t in s.running)
    && r.hasrun == s.hasrun && r.broken == s.broken && (s.stop ==> r.stop)
  }

  lemma NoneNewTruthful(p: Plan, w: Will, s: Sched, r: Sched)
    requires Truthful(p, w, s) && NoneNew(s, r)
    ensures Truthful(p, w, r)
  {
  }

  lemma WorkerNoneNew(p: Plan, s: Sched, t: Task)
    ensures s.ready != [] ==> NoneNew(s, Fetch(s))
    ensures t in s.fetched ==> NoneNew(s, Enter(s, t))
    ensures NoneNew(s, RaiseStop(p, s, t)) && NoneNew(s, Report(s, t)) && NoneNew(s, HandBack(s, t))
  {
  }

  lemma OtherTruthful(p: Plan, w: Will, s: Sched, r: Sched)
    requires Truthful(p, w, s)
    requires
      || (s.ready != [] && r == Fetch(s))
      || (exists t :: t in s.fetched && r == Enter(s, t))
      || (exists t :: t in s.failed && r == RaiseStop(p, s, t))
      || (exists t :: t in s.stopping && r == Report(s, t))
      || (exists t :: t in s.returning && r == HandBack(s, t))
    ensures Truthful(p, w, r)
  {
    hide Truthful, NoneNew, Fetch, Enter, RaiseStop, Report, HandBack;
    if s.ready != [] && r == Fetch(s) {
      WorkerNoneNew(p, s, 0);
    } else {
      var t :| (t in s.fetched && r == Enter(s, t)) || (t in s.failed && r == RaiseStop(p, s, t))
               || (t in s.stopping && r == Report(s, t)) || (t in s.returning && r == HandBack(s, t));
      WorkerNoneNew(p, s, t);
    }
    NoneNewTruthful(p, w, s, r);
  }

  lemma MainGoes(p: Plan, w: Will, s: Sched, r: Sched)
    requires Sound(p, w, s) && MainStep(p, s, r)
    ensures Inv(p, r) && Reachable(p, r)
  {
    hide Inv, Reachable, Truthful, MainStep;
    MainStepKeeps(p, s, r);
    Mains(p, s, r);
  }

  /** Nothing about any task is decided, run or reported. */
  ghost predicate SameTasks(s: Sched, r: Sched) {
    && r.ready == s.ready && r.fetched == s.fetched && r.running == s.running && r.failed == s.failed
    && r.stopping == s.stopping && r.returning == s.returning && r.hasrun == s.hasrun && r.broken == s.broken
    && r.stop == s.stop
  }

  lemma QuietGoes(p: Plan, w: Will, s: Sched, r: Sched)
    requires Sound(p, w, s) && MainStep(p, s, r) && SameTasks(s, r)
    ensures Sound(p, w, r)
  {
    hide Inv, Reachable, Truthful, Free, MainStep, SameTasks;
    MainGoes(p, w, s, r);
    QuietTruthful(p, w, s, r);
  }

  lemma QuietTruthful(p: Plan, w: Will, s: Sched, r: Sched)
    requires Truthful(p, w, s) && Free(p, s) && SameTasks(s, r)
    ensures Truthful(p, w, r) && Free(p, r)
  {
  }

  lemma GetOutGoes(p: Plan, w: Will, s: Sched)
    requires Sound(p, w, s) && Collects(p, s)
    ensures s.out != [] && s.out[0] in p.more && Sound(p, w, GetOut(p, s))
  {
    hide Inv, Reachable, Truthful;
    QuietGoes(p, w, s, GetOut(p, s));
  }

  lemma PopGoes(p: Plan, w: Will, s: Sched)
    requires Sound(p, w, s) && s.outstanding != [] && s.current == []
    ensures Sound(p, w, Pop(s))
  {
    hide Inv, Reachable, Truthful;
    QuietGoes(p, w, s, Pop(s));
  }

  lemma ClearGoes(p: Plan, w: Will, s: Sched)
    requires Sound(p, w, s) && |s.current| == 1 && !s.stop
    ensures Sound(p, w, Clear(s))
  {
    hide Inv, Reachable, Truthful;
    QuietGoes(p, w, s, Clear(s));
  }

  lemma PostponeGoes(p: Plan, w: Will, s: Sched, front: bool)
    requires Sound(p, w, s) && |s.current| == 1 && s.cleared
    requires s.deadlock == Some(s.processed) ==> s.Blocked(s.current[0])
    ensures Sound(p, w, Postpone(s, front))
  {
    hide Inv, Reachable, Truthful, Sched.Blocked;
    QuietGoes(p, w, s, Postpone(s, front));
  }

  lemma TakeFrozenGoes(p: Plan, w: Will, s: Sched)
    requires Sound(p, w, s) && s.current == [] && OnlyMore(p, s)
    ensures Sound(p, w, TakeFrozen(s))
  {
    hide Inv, Reachable, Truthful, OnlyMore;
    QuietGoes(p, w, s, TakeFrozen(s));
  }

  lemma RetryFrozenGoes(p: Plan, w: Will, s: Sched)
    requires Sound(p, w, s) && s.current == [] && s.outstanding == [] && s.count == 0
    requires s.deadlock != Some(s.processed)
    ensures Sound(p, w, RetryFrozen(s))
  {
    hide Inv, Reachable, Truthful;
    QuietGoes(p, w, s, RetryFrozen(s));
  }

  lemma GroupGoes(p: Plan, w: Will, s: Sched, i: nat, ra: RunAfter)
    requires Sound(p, w, s) && s.frozen == [] && s.current == [] && s.count == 0 && OnlyMore(p, s)
    requires HandsOut(p, s, i, ra)
    ensures Sound(p, w, TakeGroup(p, s, i, ra))
  {
    hide Inv, Reachable, Truthful, OnlyMore, HandsOut;
    QuietGoes(p, w, s, TakeGroup(p, s, i, ra));
  }

  lemma DispatchGoes(p: Plan, w: Will, s: Sched, t: Task)
    requires Sound(p, w, s) && s.current == [t] && s.Chosen() && s.count <= p.numjobs * GAP && w.says(t) == RunMe
    ensures var r := Dispatch(s); Inv(p, r) && Reachable(p, r) && Truthful(p, w, r)
  {
    DispatchIsStep(p, s);
    DispatchTruthful(p, w, s, t);
    hide Inv, Reachable, Truthful, Free, MainStep, Dispatch;
    MainGoes(p, w, s, Dispatch(s));
  }

  lemma DispatchIsStep(p: Plan, s: Sched)
    requires s.Chosen() && s.count <= p.numjobs * GAP
    ensures MainStep(p, s, Dispatch(s))
  {
  }

  lemma DispatchTruthful(p: Plan, w: Will, s: Sched, t: Task)
    requires Truthful(p, w, s) && s.current == [t] && w.says(t) == RunMe
    ensures Truthful(p, w, Dispatch(s))
  {
  }

  lemma SkipGoes(p: Plan, w: Will, s: Sched, t: Task)
    requires Sound(p, w, s) && s.current == [t] && s.Chosen() && w.says(t) == SkipMe
    ensures t in p.more && Sound(p, w, SkipTask(p, s))
  {
    DecidedReady(p, s);
    CurrentFresh(p, s, t);
    SkipIsStep(p, s);
    SkipTruthful(p, w, s, t);
    hide Inv, Reachable, Truthful, Free, MainStep, SkipTask;
    MainGoes(p, w, s, SkipTask(p, s));
  }

  lemma SkipIsStep(p: Plan, s: Sched)
    requires s.Chosen() && s.current[0] in p.more
    ensures MainStep(p, s, SkipTask(p, s))
  {
  }

  lemma SkipTruthful(p: Plan, w: Will, s: Sched, t: Task)
    requires Truthful(p, w, s) && Free(p, s) && s.current == [t] && t in p.more && w.says(t) == SkipMe
    requires t !in s.hasrun && t !in s.broken
    ensures Truthful(p, w, SkipTask(p, s)) && Free(p, SkipTask(p, s))
  {
  }

  lemma BreakGoes(p: Plan, w: Will, s: Sched, verbose: bool, t: Task)
    requires Sound(p, w, s) && s.current == [t] && s.Chosen() && w.says(t) == StatusRaised
    ensures Sound(p, w, Break(p, s, verbose))
  {
    CurrentFresh(p, s, t);
    BreakIsStep(p, s, verbose);
    BreakTruthful(p, w, s, verbose, t);
    hide Inv, Reachable, Truthful, Free, MainStep, Break;
    MainGoes(p, w, s, Break(p, s, verbose));
  }

  lemma BreakIsStep(p: Plan, s: Sched, verbose: bool)
    requires s.Chosen()
    ensures MainStep(p, s, Break(p, s, verbose))
  {
  }

  lemma BreakTruthful(p: Plan, w: Will, s: Sched, verbose: bool, t: Task)
    requires Truthful(p, w, s) && Free(p, s) && s.current == [t] && w.says(t) == StatusRaised
    requires t !in s.hasrun && t !in s.broken
    ensures Truthful(p, w, Break(p, s, verbose)) && Free(p, Break(p, s, verbose))
  {
  }

  lemma MayCollect(p: Plan, s: Sched, r: Sched)
    requires Inv(p, r) && Interfered(s, r) && r.out != []
    requires s.stop || (s.current == [] && (s.outstanding == [] || s.count > p.numjobs * GAP))
    ensures Collects(p, r)
  {
    GetOutKeeps(p, r);
  }

  /** Where the worker threads are (see `Sched`). */
  datatype Crew = Crew(fetched: set<Task>, running: set<Task>, failed: set<Task>, stopping: set<Task>,
                       returning: set<Task>)

  /** What the proof keeps track of besides the fields of the source (see `Sched`). */
  datatype Book = Book(current: seq<Task>, cleared: bool, retired: seq<Task>, expanded: set<Task>, broken: set<Task>,
                       log: seq<Event>)

  class Parallel {
    const plan: Plan
    const will: Will

    var outstanding: seq<Task>
    var frozen: seq<Task>
    var ready: seq<Task>
    var out: seq<Task>
    var error: seq<Task>
    var count: int
    var processed: int
    var deadlock: Option<int>
    var stop: bool
    /** The position of the build iterator, and `run_after` and `hasrun` of the tasks. */
    var cur: nat
    var runAfter: RunAfter
    var hasrun: map<Task, Status>
    var crew: Crew

    ghost var book: Book

    ghost function Snap(): Sched
      reads this
    {
      Sched(outstanding, frozen, book.current, book.cleared, ready, crew.fetched, crew.running, crew.failed,
            crew.stopping, crew.returning, out, book.retired, book.expanded, book.broken,
            count, processed, deadlock, stop, error, cur, runAfter, hasrun, book.log)
    }

    /** Whatever has happened so far is a run of the state machine. */
    ghost predicate Valid()
      reads this
    {
      Inv(plan, Snap()) && Reachable(plan, Snap()) && Truthful(plan, will, Snap())
    }

    /** The main thread may go on. */
    ghost predicate MainTurn()
      reads this
    {
      Free(plan, Snap())
    }

    constructor (plan: Plan, will: Will, runAfter: RunAfter)
      requires plan.Valid() && runAfter.Keys == plan.All()
      ensures this.plan == plan && Snap() == StartSched(runAfter) && Valid() && MainTurn()
    {
      this.plan, this.will := plan, will;
      this.runAfter := runAfter;
      outstanding, frozen, ready, out, error := [], [], [], [], [];
      count, processed, deadlock, stop, cur, hasrun := 0, 1, None, false, 0, map[];
      crew := Crew({}, {}, {}, {}, {});
      book := Book([], false, [], {}, {}, []);
      new;
      StartsValid(plan, Snap());
      Starts(plan, runAfter);
    }

    predicate CanWork()
      reads this
    {
      crew.fetched + crew.running + crew.failed + crew.stopping + crew.returning != {} || ready != []
    }

    /** A worker takes the next task off the `ready` queue. */
    method Take()
      requires ready != []
      modifies `ready, `crew
      ensures Snap() == Fetch(old(Snap()))
      ensures ready == old(ready)[1..] && crew.fetched == old(crew.fetched) + {old(ready)[0]}
    {
      var t := ready[0];
      ready, crew := ready[1..], crew.(fetched := crew.fetched + {t});
    }

    /** `process` looks at `stop`; unless it is set `run` begins. */
    method Process(t: Task)
      requires t in crew.fetched
      modifies `crew, `out, `book
      ensures Snap() == Enter(old(Snap()), t)
      ensures old(stop) ==> out == old(out) + [t] && crew.running == old(crew.running) && book == old(book)
      ensures !old(stop) ==> out == old(out) && crew.running == old(crew.running) + {t}
    {
      crew := crew.(fetched := crew.fetched - {t});
      if stop {
        out := out + [t];
        return;
      }
      crew, book := crew.(running := crew.running + {t}), book.(log := book.log + [Begin(t)]);
    }

    /** `run` and `post_run` are over: well, or with an exit status, a missing file or an exception. */
    method SetHasrun(t: Task, st: Status)
      requires t in crew.running
      modifies `crew, `hasrun, `book
      ensures Snap() == Finish(old(Snap()), t, st)
      ensures hasrun == old(hasrun)[t := st]
    {
      hasrun, book := hasrun[t := st], book.(log := book.log + [End(t, st)]);
      crew := crew.(running := crew.running - {t});
      if st != Success {
        crew := crew.(failed := crew.failed + {t});
      } else {
        crew := crew.(returning := crew.returning + {t});
      }
    }

    /** The two halves of `error_handler`. */
    method HandleErrorStop(t: Task)
      requires t in crew.failed
      modifies `crew, `stop
      ensures Snap() == RaiseStop(plan, old(Snap()), t)
      ensures stop <==> old(stop) || plan.keep == 0
    {
      if plan.keep == 0 {
        stop := true;
      }
      crew := crew.(failed := crew.failed - {t}, stopping := crew.stopping + {t});
    }

    method HandleErrorAppend(t: Task)
      requires t in crew.stopping
      modifies `crew, `error
      ensures Snap() == Report(old(Snap()), t)
      ensures error == old(error) + [t]
    {
      error := error + [t];
      crew := crew.(stopping := crew.stopping - {t}, returning := crew.returning + {t});
    }

    method PutOut(t: Task)
      requires t in crew.returning
      modifies `out, `crew
      ensures Snap() == HandBack(old(Snap()), t)
    {
      out := out + [t];
      crew := crew.(returning := crew.returning - {t});
    }

    /** One worker makes one step of `TaskConsumer.loop` and `Task.process`. */
    method WorkerStep()
      requires Valid() && CanWork()
      modifies this
      ensures Valid() && Interfered(old(Snap()), Snap()) && Work(Snap()) < Work(old(Snap()))
    {
      hide Inv, Interfered, Work, Reachable;
      ghost var s := Snap();
      CanWorkNow(plan, s);
      var busy := |crew.fetched| + |crew.running| + |crew.failed| + |crew.stopping| + |crew.returning|;
      if {
        case ready != [] && busy < plan.numjobs => Take();
        case crew.fetched != {} =>
          var t :| t in crew.fetched;
          Process(t);
        case crew.running != {} =>
          var t :| t in crew.running;
          SetHasrun(t, will.does(t));
        case crew.failed != {} =>
          var t :| t in crew.failed;
          HandleErrorStop(t);
        case crew.stopping != {} =>
          var t :| t in crew.stopping;
          HandleErrorAppend(t);
        case crew.returning != {} =>
          var t :| t in crew.returning;
          PutOut(t);
      }
      WorkerStepSeen(plan, s, Snap());
      Workers(plan, s, Snap());
      WorkerTruthful(plan, will, s, Snap());
    }

    /** Any number of worker steps. */
    method Interfere()
      requires Valid() && MainTurn()
      modifies this
      ensures Valid() && MainTurn() && Interfered(old(Snap()), Snap())
    {
      hide Inv, Interfered, Work, Schedule.WorkerStep, Reachable, Truthful;
      SeesItself(Snap());
      while *
        invariant Valid() && MainTurn() && Interfered(old(Snap()), Snap())
        decreases Work(Snap())
      {
        if !CanWork() {
          break;
        }
        ghost var s := Snap();
        WorkerStep();
        InterferedTwice(old(Snap()), s, Snap());
      }
    }

    /** `out.get()` blocks until a worker has answered; then one task is retired. */
    method GetOut()
      requires Valid() && MainTurn() && count != 0
      requires stop || (book.current == [] && (outstanding == [] || count > plan.numjobs * GAP))
      modifies this
      ensures Valid() && MainTurn() && Collected(plan, old(Snap()), Snap())
      ensures old(stop) ==> outstanding == old(outstanding)
    {
      hide Inv, Interfered, Work, Collected, Collects, Reachable, Truthful, Schedule.GetOut;
      ghost var s := Snap();
      SeesItself(s);
      while out == []
        invariant Valid() && MainTurn() && Interfered(s, Snap()) && count != 0
        decreases Work(Snap())
      {
        SomeoneWorks(plan, Snap());
        ghost var r := Snap();
        WorkerStep();
        InterferedTwice(s, r, Snap());
        InterferedCount(s, Snap());
      }
      MayCollect(plan, s, Snap());
      GetOutGoes(plan, will, Snap());
      GetOutSeen(plan, s, Snap());
      InterferedStop(s, Snap());
      Retire();
    }

    /** One answer is taken off `out`; unless the build is stopping its `more_tasks` join in. */
    method Retire()
      requires out != [] && out[0] in plan.more
      modifies `out, `count, `outstanding, `book
      ensures Snap() == Schedule.GetOut(plan, old(Snap()))
      ensures outstanding == if old(stop) then old(outstanding) else old(outstanding) + plan.more[old(out)[0]]
    {
      var t := out[0];
      out := out[1..];
      if !stop {
        AddMoreTasks(t);
      }
      count := count - 1;
      book := book.(retired := book.retired + [t]);
    }

    method AddMoreTasks(t: Task)
      requires t in plan.more
      modifies `outstanding, `book
      ensures outstanding == old(outstanding) + plan.more[t]
      ensures book == old(book).(expanded := old(book).expanded + {t})
    {
      outstanding := outstanding + plan.more[t];
      book := book.(expanded := book.expanded + {t});
    }

    /** `get_build_iterator`: the next group that is not empty, with its tasks put in order, or nothing. */
    method NextGroup()
      requires Valid() && MainTurn() && frozen == [] && book.current == [] && count == 0 && OnlyMore(plan, Snap())
      modifies `outstanding, `cur, `runAfter
      ensures Valid() && MainTurn()
      ensures outstanding == [] ==> cur == |plan.groups|
      ensures old(cur) < cur <= |plan.groups| || Snap() == old(Snap())
      ensures SameBut(plan, old(Snap()), Snap())
      ensures old(Known(plan, runAfter)) <==> Known(plan, runAfter)
    {
      hide Inv, HandsOut, OnlyEmpty, Known, Work, Left, SameBut, TakeGroup, OnlyMore, Plan.Valid, Reachable, Truthful;
      ghost var s := Snap();
      CurInPlan(plan, s);
      var tasks := Advance();
      HandsOutEnd(plan, s, cur, runAfter);
      ghost var i := if tasks == [] then cur else cur - 1;
      GroupTakenKeeps(plan, s, i, runAfter);
      GroupGoes(plan, will, s, i, runAfter);
      GroupTaking(plan, s, i, runAfter, tasks);
      outstanding := outstanding + tasks;
    }

    /** The loop of the generator: `cur` moves past empty groups and one group that is not. */
    method Advance() returns (tasks: seq<Task>)
      requires plan.Valid() && OnlyEmpty(plan, Snap(), cur) && runAfter.Keys == plan.All()
      modifies `cur, `runAfter
      ensures cur <= |plan.groups|
      ensures if tasks == [] then OnlyEmpty(plan, old(Snap()), cur) && runAfter == old(runAfter) && cur == |plan.groups|
              else old(cur) < cur && tasks == plan.groups[cur - 1] && HandsOut(plan, old(Snap()), cur - 1, runAfter)
    {
      hide HandsOut, OnlyEmpty, Constrains;
      ghost var s := Snap();
      CurBound(plan, s, cur);
      tasks := [];
      while cur < |plan.groups| && tasks == []
        invariant cur <= |plan.groups|
        invariant if tasks == [] then OnlyEmpty(plan, s, cur) && runAfter == s.runAfter
                  else s.cur < cur && tasks == plan.groups[cur - 1] && HandsOut(plan, s, cur - 1, runAfter)
        decreases |plan.groups| - cur
      {
        CurBound(plan, s, cur);
        tasks := plan.groups[cur];
        var ra := ConstrainGroup(plan, cur, runAfter);
        HandsOutNext(plan, s, cur, ra);
        runAfter := ra;
        cur := cur + 1;
      }
    }

    /** `refill_task_list`. The result says whether the source raises "Deadlock detected". */
    method RefillTaskList() returns (deadlocked: bool)
      requires Valid() && MainTurn() && book.current == [] && !stop
      modifies this
      ensures Valid() && MainTurn() && book.current == []
      ensures deadlocked ==> !stop && Stuck(Snap())
      ensures !deadlocked ==> count <= plan.numjobs * GAP
      ensures !deadlocked && outstanding == [] ==> count == 0 && frozen == [] && cur == |plan.groups|
      ensures !deadlocked && outstanding != [] ==> Nearer(plan, old(Snap()), Snap())
      ensures old(Known(plan, runAfter)) <==> Known(plan, runAfter)
    {
      hide Inv, Interfered, Work, Left, Known, Collected, SameBut, Closer, SameRound, KeepsPatience, Stuck, OnlyMore,
           Reachable, Truthful;
      ghost var s := Snap();
      Interfere();
      InterferedNearer(plan, s, Snap());
      while count > plan.numjobs * GAP
        invariant Valid() && MainTurn() && book.current == []
        invariant Nearer(plan, s, Snap()) && KeepsPatience(s, Snap())
        invariant runAfter == s.runAfter
        decreases count
      {
        ghost var r := Snap();
        JobsPositive(plan, r);
        GetOut();
        CollectedNearer(plan, s, r, Snap());
      }
      while outstanding == []
        invariant Valid() && MainTurn() && book.current == [] && count <= plan.numjobs * GAP
        invariant Nearer(plan, s, Snap()) && (outstanding == [] ==> KeepsPatience(s, Snap()))
        invariant runAfter == s.runAfter
        decreases Work(Snap()), |frozen|
      {
        ghost var r := Snap();
        if count != 0 {
          GetOut();
          CollectedNearer(plan, s, r, Snap());
        } else if frozen != [] {
          if deadlock == Some(processed) {
            RaisesWhenStuck(plan, s, r);
            return true;
          }
          deadlock := Some(processed);
        }
        if frozen != [] {
          ghost var u := Snap();
          outstanding := outstanding + frozen;
          frozen := [];
          if r.count != 0 {
            FrozenTaken(plan, s, u);
            TakeFrozenGoes(plan, will, u);
          } else {
            FrozenRetried(plan, s, r);
            RetryFrozenGoes(plan, will, r);
          }
        } else if count == 0 {
          ghost var u := Snap();
          NothingIsOnlyMore(plan, u);
          NextGroup();
          GroupNearer(plan, s, u, Snap());
          break;
        }
      }
      return false;
    }

    /** `get_next_task`, when there is one. */
    method GetNextTask() returns (t: Task)
      requires Valid() && MainTurn() && book.current == [] && outstanding != []
      modifies `outstanding, `book
      ensures Valid() && MainTurn() && Snap() == Pop(old(Snap())) && book.current == [t]
      ensures t == old(outstanding)[0] && outstanding == old(outstanding)[1..]
    {
      hide Inv, Reachable, Truthful;
      PopGoes(plan, will, Snap());
      t := outstanding[0];
      outstanding := outstanding[1..];
      book := book.(current := [t], cleared := false);
    }

    /** `postpone`: at the front or at the back of `frozen`, at random. */
    method Postpone(t: Task)
      requires Valid() && MainTurn() && book.current == [t] && book.cleared
      requires deadlock == Some(processed) ==> Snap().Blocked(t)
      modifies `frozen, `book
      ensures Valid() && MainTurn() && exists front :: Snap() == Schedule.Postpone(old(Snap()), front)
      ensures frozen == [t] + old(frozen) || frozen == old(frozen) + [t]
    {
      hide Inv, Sched.Blocked, Reachable, Truthful;
      var front := *;
      PostponeGoes(plan, will, Snap(), front);
      if front {
        frozen := [t] + frozen;
      } else {
        frozen := frozen + [t];
      }
      book := book.(current := []);
      assert Snap() == Schedule.Postpone(old(Snap()), front);
    }

    /** `Task.runnable_status`: the tasks in `run_after` are looked at one by one while the workers go on; when
        none is left, the verdict is the task's own. */
    method RunnableStatus(t: Task) returns (st: RunStatus)
      requires Valid() && MainTurn() && book.current == [t] && t in runAfter
      modifies this
      ensures Valid() && MainTurn() && Interfered(old(Snap()), Snap())
      ensures st != AskLater ==> runAfter[t] <= hasrun.Keys && st == will.says(t)
      ensures st == AskLater ==> old(Snap().Blocked(t)) && (count == 0 ==> Snap().Blocked(t))
    {
      hide Inv, Work, Reachable, Truthful;
      SeesItself(Snap());
      var todo := runAfter[t];
      while todo != {}
        invariant Valid() && MainTurn() && Interfered(old(Snap()), Snap())
        invariant todo <= runAfter[t] && runAfter[t] - todo <= hasrun.Keys
        decreases todo
      {
        var q :| q in todo;
        todo := todo - {q};
        ghost var r := Snap();
        Interfere();
        InterferedTwice(old(Snap()), r, Snap());
        if q !in hasrun {
          return AskLater;
        }
      }
      st := will.says(t);
    }

    method Skip(t: Task)
      requires Valid() && MainTurn() && book.current == [t] && Snap().Chosen() && will.says(t) == SkipMe
      modifies this
      ensures t in plan.more && Valid() && MainTurn() && Snap() == SkipTask(plan, old(Snap()))
      ensures hasrun == old(hasrun)[t := Skipped] && outstanding == old(outstanding) + plan.more[t]
    {
      hide Inv, Sched.Chosen, Reachable, Truthful;
      SkipGoes(plan, will, Snap(), t);
      processed := processed + 1;
      hasrun := hasrun[t := Skipped];
      AddMoreTasks(t);
      book := book.(current := [], retired := book.retired + [t], log := book.log + [Event.Skip(t)]);
    }

    /** The `except` branch of `task_status`, in a verbose build or not. */
    method StatusFailed(t: Task)
      requires Valid() && MainTurn() && book.current == [t] && Snap().Chosen() && will.says(t) == StatusRaised
      modifies this
      ensures Valid() && MainTurn() && exists verbose :: Snap() == Break(plan, old(Snap()), verbose)
    {
      hide Inv, Sched.Chosen, Reachable, Truthful;
      ghost var s := Snap();
      var verbose := *;
      BreakGoes(plan, will, s, verbose, t);
      var st, stopping, errors := Raised, stop, error;
      if !stop && plan.keep != 0 {
        st := Skipped;
        if plan.keep == 1 {
          if verbose || error == [] {
            errors := error + [t];
          }
          stopping := true;
        } else if verbose {
          errors := error + [t];
        }
      } else {
        if plan.keep == 0 {
          stopping := true;
        }
        errors := error + [t];
      }
      RecordFailure(t, st, stopping, errors);
    }

    method RecordFailure(t: Task, st: Status, stopping: bool, errors: seq<Task>)
      requires book.current == [t]
      modifies `processed, `hasrun, `stop, `error, `book
      ensures Snap() == old(Snap()).(current := [], retired := old(Snap()).retired + [t],
        processed := old(processed) + 1,
        hasrun := old(hasrun)[t := st], stop := stopping, error := errors, broken := old(Snap()).broken + {t},
        log := old(Snap()).log + [Broke(t, st)])
    {
      processed := processed + 1;
      hasrun := hasrun[t := st];
      stop, error := stopping, errors;
      book := book.(current := [], retired := book.retired + [t], broken := book.broken + {t},
                    log := book.log + [Broke(t, st)]);
    }

    /** `add_task`; with one job the task is processed on the spot. */
    method Dispatch(t: Task)
      requires Valid() && MainTurn() && book.current == [t] && Snap().Chosen() && will.says(t) == RunMe
      requires count <= plan.numjobs * GAP
      modifies this
      ensures Valid() && MainTurn() && Interfered(Schedule.Dispatch(old(Snap())), Snap())
    {
      hide Inv, Sched.Chosen, Interfered, Work, Reachable, Truthful;
      DispatchGoes(plan, will, Snap(), t);
      ghost var s := Schedule.Dispatch(Snap());
      count, processed := count + 1, processed + 1;
      ready := ready + [t];
      book := book.(current := [], log := book.log + [Queue(t)]);
      assert Snap() == s;
      SeesItself(s);
      if plan.numjobs == 1 {
        while CanWork()
          invariant Valid() && Interfered(s, Snap())
          decreases Work(Snap())
        {
          ghost var r := Snap();
          WorkerStep();
          InterferedTwice(s, r, Snap());
        }
      }
    }

    /** The part of the main loop that deals with one task (lines 177-197). */
    method HandleTask(t: Task) returns (stopped: bool)
      requires Valid() && MainTurn() && book.current == [t] && count <= plan.numjobs * GAP
      modifies this
      ensures Valid() && MainTurn() && if stopped then stop else book.current == []
      ensures !stopped ==> (|| Closer(plan, old(Snap()), Snap())
                            || (SameRound(plan, old(Snap()), Snap()) && outstanding == old(outstanding)))
      ensures runAfter == old(runAfter)
    {
      hide Inv, Interfered, Work, Left, Ready, Sched.Blocked, Known, Clear, NoFurther, Reachable, Truthful;
      ghost var s := Snap();
      Interfere();
      InterferedView(s, Snap());
      FreshTask(plan, Snap(), t);
      if t in hasrun {
        assert false;
      }
      if stop {
        return true;
      }
      stopped := false;
      ClearGoes(plan, will, Snap());
      ClearMeasure(plan, s, Snap());
      book := book.(cleared := true);
      ghost var c := Snap();
      var st := RunnableStatus(t);
      ghost var u := Snap();
      InterferedView(c, u);
      match st
      case RunMe =>
        Dispatch(t);
        InterferedView(Schedule.Dispatch(u), Snap());
        DispatchCloser(plan, c, u, Snap(), t);
      case AskLater =>
        StallMeansIdle(plan, u);
        Postpone(t);
        PostponeNearer(plan, c, u, Snap());
      case SkipMe =>
        Skip(t);
        SkipCloser(plan, c, u, t);
      case StatusRaised =>
        StatusFailed(t);
        BreakCloser(plan, c, u, Snap(), t);
      ghost var v := Snap();
      CloserFrom(plan, s, c, v);
    }

    /** `start`. It comes to an end whatever the workers do and however frozen tasks are ordered; the
        result says whether it raised "Deadlock detected". */
    method Start() returns (deadlocked: bool)
      requires Valid() && MainTurn() && book.current == []
      modifies this
      ensures Valid() && MainTurn() && plan.Valid() && (Known(plan, runAfter) <==> old(Known(plan, runAfter)))
      ensures deadlocked ==> !stop && Stuck(Snap())
      ensures !deadlocked ==> count == 0 || (stop && error == [] && crew.stopping != {} && plan.numjobs != 1)
      ensures stop ==> Cause(plan, Snap())
      ensures count == 0 ==> (forall t :: t in hasrun && Bad(hasrun[t]) ==> t in error)
      ensures forall t :: t in error ==> t in hasrun && (Bad(hasrun[t]) || will.says(t) == StatusRaised)
      ensures NoDup(error)
      ensures count == 0 && plan.keep == 0 ==> (stop <==> error != [])
      ensures !deadlocked && count == 0 && plan.keep < 2 ==> (error == [] <==> AllWell(plan, will))
      ensures AllWell(plan, will) ==> !stop && error == []
      ensures !stop ==> forall t :: t in hasrun ==> hasrun[t] == Foretold(will, t)
      ensures !deadlocked && !stop ==> Finished(plan, Snap()) && hasrun.Keys == Live(plan, Snap())
      ensures !deadlocked && !stop && (plan.keep < 2 || plan.NoMore()) ==> hasrun.Keys == plan.All()
      ensures !stop && plan.NoMore() ==>
        (deadlocked <==> Cyclic(Waits(plan, runAfter), plan.All()) || old(!Known(plan, runAfter)))
      ensures !stop && plan.keep < 2 && old(Known(plan, runAfter)) ==>
        (deadlocked <==> Cyclic(Waits(plan, runAfter), plan.All()))
      ensures !stop && old(Known(plan, runAfter)) ==>
        (deadlocked <==> WaitsForLost(plan, Snap()) || Cyclic(Waits(plan, runAfter), Live(plan, Snap())))
      ensures !stop && (WaitsForLost(plan, Snap()) || Cyclic(Waits(plan, runAfter), Live(plan, Snap()))) ==> deadlocked
    {
      hide Inv, Interfered, Work, Left, Known, Collected, Stuck, Cyclic, Waits, Live, WaitsForLost, Plan.Valid,
           Plan.NoMore, Reachable, Truthful, Cause, Foretold, AllWell, Bad, NoDup, Finished;
      deadlocked := MainLoop();
      if deadlocked {
        StuckIsIdle(Snap());
      } else {
        Drain();
      }
      ErrorsAtEnd(plan, will, Snap(), deadlocked);
      ReportOutcome(deadlocked);
    }

    /** The loop of `start` (lines 169-197): up to `stop`, a deadlock or the end. */
    method MainLoop() returns (deadlocked: bool)
      requires Valid() && MainTurn() && book.current == []
      modifies this
      ensures Valid() && MainTurn() && (Known(plan, runAfter) <==> old(Known(plan, runAfter)))
      ensures if deadlocked then !stop && Stuck(Snap()) else stop || Finished(plan, Snap())
    {
      hide Inv, Interfered, Work, Left, Known, Collected, Stuck, Plan.Valid, Plan.NoMore, Reachable, Truthful;
      while !stop
        invariant Valid() && MainTurn() && (Known(plan, runAfter) <==> old(Known(plan, runAfter)))
        invariant book.current == []
        decreases Left(plan, Snap()), Work(Snap()), GroupsLeft(plan, Snap()), Patience(Snap()), |outstanding|
      {
        ghost var s := Snap();
        GroupsBound(plan, s);
        deadlocked := RefillTaskList();
        if deadlocked {
          return;
        }
        if outstanding == [] {
          if count != 0 {
            assert false;
          } else {
            return false;
          }
        }
        ghost var r := Snap();
        var t := GetNextTask();
        ghost var u := Snap();
        var stopped := HandleTask(t);
        if stopped {
          return false;
        }
        TurnCloser(plan, s, r, u, Snap());
      }
      return false;
    }

    /** With an error on record the answers that are still to come are collected (lines 198-199). */
    method Drain()
      requires Valid() && MainTurn() && (stop || Finished(plan, Snap()))
      modifies this
      ensures Valid() && MainTurn() && (stop || Finished(plan, Snap())) && (error != [] ==> count == 0)
      ensures runAfter == old(runAfter)
    {
      hide Inv, Interfered, Work, Left, Collected, Reachable, Truthful;
      while error != [] && count != 0
        invariant Valid() && MainTurn() && (stop || Finished(plan, Snap())) && runAfter == old(runAfter)
        decreases count
      {
        ghost var r := Snap();
        JobsPositive(plan, r);
        GetOut();
        CollectedView(plan, r, Snap());
      }
    }

    ghost method ReportOutcome(deadlocked: bool)
      requires Valid() && (!stop ==> if deadlocked then Stuck(Snap()) else Finished(plan, Snap()))
      ensures plan.Valid()
      ensures !deadlocked && !stop ==> hasrun.Keys == Live(plan, Snap())
      ensures !deadlocked && !stop && (plan.keep < 2 || plan.NoMore()) ==> hasrun.Keys == plan.All()
      ensures !stop && plan.NoMore() ==>
        (deadlocked <==> Cyclic(Waits(plan, runAfter), plan.All()) || !Known(plan, runAfter))
      ensures !stop && plan.keep < 2 && Known(plan, runAfter) ==>
        (deadlocked <==> Cyclic(Waits(plan, runAfter), plan.All()))
      ensures !stop && Known(plan, runAfter) ==>
        (deadlocked <==> WaitsForLost(plan, Snap()) || Cyclic(Waits(plan, runAfter), Live(plan, Snap())))
      ensures !stop && (WaitsForLost(plan, Snap()) || Cyclic(Waits(plan, runAfter), Live(plan, Snap()))) ==> deadlocked
    {
      hide Inv, Known, Stuck, Cyclic, Waits, Live, WaitsForLost, Plan.NoMore, Reachable, Truthful;
      PlanValid(plan, Snap());
      if !stop {
        Outcome(plan, Snap(), deadlocked);
      }
    }
  }

  // --- the errors of a build that is over

  lemma StuckIsIdle(s: Sched)
    requires Stuck(s)
    ensures s.count == 0
  {
  }

  lemma IdleHands(p: Plan, s: Sched)
    requires Inv(p, s) && s.count == 0
    ensures s.failed == {} && s.stopping == {}
  {
    hide Placed, Reported, Ordered, Logged, Constrained, Barrier, Cleared, Stalled;
    NothingInFlight(p, s);
    assert s.failed <= s.Busy() && s.stopping <= s.Busy();
  }

  lemma BrokenRaised(p: Plan, w: Will, s: Sched)
    requires Inv(p, s) && Truthful(p, w, s)
    ensures forall t :: t in s.broken ==> t in s.hasrun && w.says(t) == StatusRaised
    ensures forall t :: t in s.hasrun ==> t in p.origin
  {
    hide Placed, Counted, Ordered, Logged, Constrained, Barrier, Cleared, Stalled;
    HasrunGone(p, s);
    TakenInPlan(p, s);
  }

  lemma AllWellNoneBad(p: Plan, w: Will, s: Sched)
    requires Truthful(p, w, s) && AllWell(p, w)
    requires forall t :: t in s.hasrun ==> t in p.origin
    ensures forall t :: t in s.hasrun ==> !Bad(s.hasrun[t])
  {
  }

  lemma UnstoppedForetold(p: Plan, w: Will, s: Sched)
    requires Truthful(p, w, s) && !s.stop
    ensures forall t :: t in s.hasrun ==> s.hasrun[t] == Foretold(w, t)
  {
  }

  lemma NoneBadAllWell(p: Plan, w: Will, s: Sched)
    requires Truthful(p, w, s) && s.hasrun.Keys == p.All() && s.broken == {}
    requires forall t :: t in s.hasrun ==> !Bad(s.hasrun[t])
    ensures AllWell(p, w)
  {
    forall t | t in p.origin
      ensures w.says(t) != StatusRaised && (w.says(t) == RunMe ==> w.does(t) == Success)
    {
      assert t in s.hasrun;
    }
  }

  /** Why `stop` is set when the build is over, what is on record, and how that depends on the tasks alone. */
  lemma ErrorsAtEnd(p: Plan, w: Will, s: Sched, deadlocked: bool)
    requires Sound(p, w, s) && if deadlocked then s.count == 0 && !s.stop else s.stop || Finished(p, s)
    requires s.error != [] ==> s.count == 0
    ensures s.count == 0 || (s.stop && s.error == [] && s.stopping != {} && p.numjobs != 1)
    ensures s.stop ==> Cause(p, s)
    ensures s.count == 0 ==> forall t :: t in s.hasrun && Bad(s.hasrun[t]) ==> t in s.error
    ensures forall t :: t in s.error ==> t in s.hasrun && (Bad(s.hasrun[t]) || w.says(t) == StatusRaised)
    ensures NoDup(s.error)
    ensures s.count == 0 && p.keep == 0 ==> (s.stop <==> s.error != [])
    ensures !deadlocked && s.count == 0 && p.keep < 2 ==> (s.error == [] <==> AllWell(p, w))
    ensures AllWell(p, w) ==> !s.stop && s.error == []
    ensures !s.stop ==> forall t :: t in s.hasrun ==> s.hasrun[t] == Foretold(w, t)
  {
    hide Inv, Reachable, Truthful, Free, Finished, Cause, Foretold, AllWell, Bad, Plan.Valid, NoDup;
    PlanValid(p, s);
    EveryBuildAccounts(p, s);
    BrokenRaised(p, w, s);
    EndsIdle(p, s);
    if !s.stop {
      UnstoppedForetold(p, w, s);
    }
    if s.count == 0 {
      IdleHands(p, s);
      RecordIsExact(p, s);
    }
    if AllWell(p, w) {
      WellEnds(p, w, s);
    } else if !deadlocked && s.count == 0 && p.keep < 2 && s.error == [] {
      CleanIsWell(p, w, s);
    }
  }

  lemma EndsIdle(p: Plan, s: Sched)
    requires Inv(p, s) && Accounted(p, s) && Free(p, s) && (s.stop || s.count == 0 || Finished(p, s))
    requires s.error != [] ==> s.count == 0
    ensures s.count == 0 || (s.stop && s.error == [] && s.stopping != {} && p.numjobs != 1)
  {
    hide Inv, Justified, Recorded;
  }

  lemma WellEnds(p: Plan, w: Will, s: Sched)
    requires Truthful(p, w, s) && Accounted(p, s) && AllWell(p, w)
    requires forall t :: t in s.broken ==> t in s.hasrun && w.says(t) == StatusRaised
    requires forall t :: t in s.hasrun ==> t in p.origin
    ensures !s.stop && s.error == []
  {
    AllWellNoneBad(p, w, s);
    hide Truthful, Noted;
    assert forall t :: t !in s.broken;
    HasFirst(s.error);
  }

  lemma CleanIsWell(p: Plan, w: Will, s: Sched)
    requires Sound(p, w, s) && p.Valid() && p.keep < 2 && s.count == 0 && s.error == [] && (s.stop || Finished(p, s))
    ensures AllWell(p, w)
  {
    hide Inv, Reachable, Truthful, Free, Finished, AllWell, Bad, Plan.Valid, Live, NothingLost;
    IdleHands(p, s);
    RecordIsExact(p, s);
    NothingIsLost(p, s);
    EndIsComplete(p, s);
    NoneBroken(p, s);
    NoneBadAllWell(p, w, s);
  }

  lemma SeesItself(s: Sched)
    ensures Interfered(s, s)
  {
  }

  lemma CanWorkNow(p: Plan, s: Sched)
    requires Inv(p, s)
    ensures s.Busy() == {} ==> s.Workers() < p.numjobs
  {
  }

  /** What `get_out` does, as far as the caller depends on it. */
  ghost predicate Collected(p: Plan, s: Sched, r: Sched) {
    && r.frozen == s.frozen && r.current == s.current && r.count == s.count - 1 && r.processed == s.processed
    && r.deadlock == s.deadlock && r.cur == s.cur && r.runAfter == s.runAfter && (s.stop ==> r.stop)
    && Gathered(p, s, r)
    && Left(p, r) == Left(p, s) && Work(r) < Work(s)
  }

  /** Nothing is added to `outstanding` but the `more_tasks` of the task just retired. */
  ghost predicate Gathered(p: Plan, s: Sched, r: Sched) {
    || r.outstanding == s.outstanding
    || (r.retired != [] && var t := r.retired[|r.retired| - 1];
        t in p.more && r.outstanding == s.outstanding + p.more[t])
  }

  ghost predicate SameBut(p: Plan, s: Sched, r: Sched) {
    && r.processed == s.processed && r.deadlock == s.deadlock && r.stop == s.stop && Left(p, r) == Left(p, s)
         && Work(r) == Work(s)
  }

  lemma SomeoneWorks(p: Plan, s: Sched)
    requires Inv(p, s) && s.count != 0 && s.out == []
    ensures s.Busy() != {} || s.ready != []
  {
    hide Placed, Reported, Ordered, Logged, Constrained, Barrier, Cleared, Stalled;
    BusyCounts(p, s);
  }

  lemma InterferedCount(s: Sched, r: Sched)
    requires Interfered(s, r)
    ensures r.count == s.count && r.current == s.current
  {
  }

  lemma InterferedStop(s: Sched, r: Sched)
    requires Interfered(s, r)
    ensures r.outstanding == s.outstanding && (s.stop ==> r.stop)
  {
  }

  lemma GetOutSeen(p: Plan, s: Sched, r: Sched)
    requires Interfered(s, r) && r.out != [] && r.out[0] in p.more
    ensures Collected(p, s, GetOut(p, r))
  {
    InterferedProgress(p, s, r);
    var u := GetOut(p, r);
    assert r.out == [r.out[0]] + r.out[1..];
    assert forall t :: u.Gone(t) <==> r.Gone(t);
    assert (set t | t in p.origin && !u.Gone(t)) == (set t | t in p.origin && !r.Gone(t));
  }

  ghost predicate OnlyEmpty(p: Plan, s: Sched, i: nat) {
    s.cur <= i <= |p.groups| && forall k :: s.cur <= k < i ==> p.groups[k] == []
  }

  lemma CurBound(p: Plan, s: Sched, i: nat)
    requires OnlyEmpty(p, s, i)
    ensures s.cur <= i <= |p.groups|
  {
  }

  lemma HandsOutNext(p: Plan, s: Sched, i: nat, ra: RunAfter)
    requires OnlyEmpty(p, s, i) && i < |p.groups| && Constrains(p, i, s.runAfter, ra)
    ensures HandsOut(p, s, i, ra)
    ensures p.groups[i] == [] ==> OnlyEmpty(p, s, i + 1)
  {
  }

  lemma HandsOutEnd(p: Plan, s: Sched, i: nat, ra: RunAfter)
    ensures OnlyEmpty(p, s, i) && i == |p.groups| && ra == s.runAfter ==> HandsOut(p, s, i, ra)
  {
  }

  lemma NothingIsOnlyMore(p: Plan, s: Sched)
    ensures s.outstanding == [] ==> OnlyMore(p, s)
  {
  }

  lemma CurInPlan(p: Plan, s: Sched)
    requires Inv(p, s)
    ensures OnlyEmpty(p, s, s.cur) && p.Valid() && s.runAfter.Keys == p.All()
  {
  }

  lemma ValidPlan(p: Plan, s: Sched)
    requires Inv(p, s)
    ensures p.Valid()
  {
  }

  /** The constraints put on one group, `get_build_iterator` lines 414-415. */
  method ConstrainGroup(p: Plan, i: nat, ra: RunAfter) returns (r: RunAfter)
    requires p.Valid() && i < |p.groups| && ra.Keys == p.All()
    ensures Constrains(p, i, ra, r) && (p.groups[i] == [] ==> r == ra)
  {
    hide Constrains, Precedes, HasKind, Producers, Preceding, Settled, NoDup;
    GroupInPlan(p, i);
    var rb := SetFileConstraints(p.info, p.groups[i], ra);
    var keys;
    r, keys := SetPrecedenceConstraints(p.info, p.groups[i], rb);
    ConstraintsHold(p, i, ra, rb, keys, r);
  }

  lemma GroupInPlan(p: Plan, i: nat)
    requires p.Valid() && i < |p.groups|
    ensures Elements(p.groups[i]) <= p.info.Keys && Elements(p.groups[i]) <= p.All()
  {
    GroupListedOnce(p, i);
  }

  lemma ConstraintsHold(p: Plan, i: nat, ra: RunAfter, rb: RunAfter, keys: seq<Kind>, rc: RunAfter)
    requires p.Valid() && i < |p.groups| && Elements(p.groups[i]) <= p.info.Keys
    requires ra.Keys == rb.Keys == rc.Keys == p.All()
    requires forall t :: t in ra && t !in p.groups[i] ==> rc[t] == rb[t] == ra[t]
    requires forall t :: t in p.groups[i] ==> t in rb && rb[t] == ra[t] + Producers(p.info, Elements(p.groups[i]), t)
    requires forall t :: t in p.groups[i] ==>
      t in rc && rc[t] == rb[t] + Preceding(p.info, Elements(p.groups[i]), keys, t)
    requires forall k :: k in keys <==> HasKind(p.info, p.groups[i], k)
    ensures Constrains(p, i, ra, rc)
  {
    hide Plan.Valid, HasKind, GoesFirst;
    forall q, t | Precedes(p, q, t) && p.origin[t].group == i
      ensures t in rc && q in rc[t]
    {
      PrecedesConstrained(p, i, keys, q, t);
    }
  }

  lemma PrecedesConstrained(p: Plan, i: nat, keys: seq<Kind>, q: Task, t: Task)
    requires p.Valid() && i < |p.groups| && Elements(p.groups[i]) <= p.info.Keys
    requires Precedes(p, q, t) && p.origin[t].group == i
    requires forall k :: k in keys <==> HasKind(p.info, p.groups[i], k)
    ensures q in p.groups[i] && t in p.groups[i]
    ensures q in Producers(p.info, Elements(p.groups[i]), t) || q in Preceding(p.info, Elements(p.groups[i]), keys, t)
  {
    GroupListedOnce(p, i);
    var k1, k2 := p.info[q].kind, p.info[t].kind;
    if Asks(k1, k2) && !Asks(k2, k1) {
      assert HasKind(p.info, p.groups[i], k1) && HasKind(p.info, p.groups[i], k2);
      assert k1 in keys && k2 in keys;
      assert GoesFirst(keys, k1, k2);
    }
  }

  lemma RootOfGroup(p: Plan, i: nat, x: Task)
    requires p.Valid() && i < |p.groups| && x in p.groups[i]
    ensures x in p.root && p.root[x] == i
  {
    GroupListedOnce(p, i);
  }

  lemma KnownStays(p: Plan, s: Sched, i: nat, ra: RunAfter)
    requires p.Valid() && HandsOut(p, s, i, ra) && Known(p, s.runAfter)
    ensures Known(p, ra)
  {
    hide Plan.Valid;
    forall t, q | t in ra && q in ra[t]
      ensures NotLater(p, q, t)
    {
      assert t in s.runAfter;
      if i < |p.groups| && t in p.groups[i] {
        RootOfGroup(p, i, t);
        if q !in s.runAfter[t] {
          assert q in Elements(p.groups[i]);
          RootOfGroup(p, i, q);
        }
      }
    }
  }

  lemma WaitsStay(p: Plan, s: Sched, i: nat, ra: RunAfter)
    requires HandsOut(p, s, i, ra) && Known(p, ra)
    ensures Known(p, s.runAfter)
  {
    forall t, q | t in s.runAfter && q in s.runAfter[t]
      ensures NotLater(p, q, t)
    {
      assert t in ra && q in ra[t];
    }
  }

  lemma GroupTaking(p: Plan, s: Sched, i: nat, ra: RunAfter, tasks: seq<Task>)
    requires tasks == if i < |p.groups| then p.groups[i] else []
    ensures TakeGroup(p, s, i, ra)
      == s.(outstanding := s.outstanding + tasks, cur := if i < |p.groups| then i + 1 else |p.groups|, runAfter := ra)
    ensures s.cur == |p.groups| && i == s.cur && ra == s.runAfter ==> TakeGroup(p, s, i, ra) == s
  {
    assert s.outstanding + [] == s.outstanding;
  }

  lemma GroupTakenKeeps(p: Plan, s: Sched, i: nat, ra: RunAfter)
    requires Inv(p, s) && s.frozen == [] && s.current == [] && s.count == 0 && OnlyMore(p, s)
    requires HandsOut(p, s, i, ra)
    ensures Inv(p, TakeGroup(p, s, i, ra)) && SameBut(p, s, TakeGroup(p, s, i, ra))
    ensures Known(p, s.runAfter) <==> Known(p, ra)
  {
    hide Inv, HandsOut, Known, SameBut, OnlyMore;
    TakeGroupKeeps(p, s, i, ra);
    GroupSeen(p, s, i, ra);
    ValidPlan(p, s);
    if Known(p, s.runAfter) {
      KnownStays(p, s, i, ra);
    }
    if Known(p, ra) {
      WaitsStay(p, s, i, ra);
    }
  }

  lemma GroupSeen(p: Plan, s: Sched, i: nat, ra: RunAfter)
    requires HandsOut(p, s, i, ra)
    ensures SameBut(p, s, TakeGroup(p, s, i, ra))
  {
    var r := TakeGroup(p, s, i, ra);
    assert (set t | t in p.origin && !r.Gone(t)) == (set t | t in p.origin && !s.Gone(t));
  }

  /** No further from the end, and closer unless `outstanding` is as it was. */
  ghost predicate Nearer(p: Plan, s: Sched, r: Sched) {
    Closer(p, s, r) || (SameRound(p, s, r) && r.outstanding == s.outstanding)
  }

  /** When the build was at its last chance at `s` and still is, nothing has happened since. */
  ghost predicate KeepsPatience(s: Sched, r: Sched) {
    r.deadlock == Some(r.processed) ==> r == s
  }

  lemma InterferedNearer(p: Plan, s: Sched, r: Sched)
    requires Inv(p, s) && Interfered(s, r)
    ensures Nearer(p, s, r) && KeepsPatience(s, r) && r.runAfter == s.runAfter && r.current == s.current
    ensures r.outstanding == s.outstanding
  {
    hide Placed, Counted, Reported, Ordered, Logged, Constrained, Barrier, Cleared, Work, Left;
    InterferedProgress(p, s, r);
    InterferedWork(s, r);
  }

  lemma InterferedWork(s: Sched, r: Sched)
    requires Interfered(s, r)
    ensures Work(r) <= Work(s)
  {
  }

  lemma JobsPositive(p: Plan, s: Sched)
    requires Inv(p, s)
    ensures p.numjobs * GAP >= 0 && s.count >= 0
  {
    hide Placed, Reported, Ordered, Logged, Constrained, Barrier, Cleared, Stalled;
  }

  lemma CollectedNearer(p: Plan, s: Sched, r: Sched, u: Sched)
    requires Inv(p, r) && Nearer(p, s, r) && r.count != 0 && Collected(p, r, u)
    ensures Closer(p, s, u) && KeepsPatience(s, u) && Work(u) < Work(r)
    ensures u.runAfter == r.runAfter && u.current == r.current && u.count == r.count - 1
    ensures r.outstanding == [] ==> OnlyMore(p, u)
  {
    GatheredOnly(p, r, u);
    hide Gathered, OnlyMore, Plan.Valid, Placed, Counted, Reported, Ordered, Logged, Constrained, Barrier, Cleared,
         Work, Left;
  }

  lemma GatheredOnly(p: Plan, s: Sched, r: Sched)
    requires Gathered(p, s, r)
    ensures s.outstanding == [] ==> OnlyMore(p, r)
  {
    if s.outstanding == [] && r.outstanding != [] {
      var q := p.more[r.retired[|r.retired| - 1]];
      assert [] + q == q;
    }
  }

  lemma RaisesWhenStuck(p: Plan, s: Sched, r: Sched)
    requires Inv(p, r) && KeepsPatience(s, r) && !s.stop
    requires r.outstanding == [] && r.current == [] && r.count == 0 && r.frozen != [] && r.deadlock == Some(r.processed)
    ensures Stuck(r) && !r.stop
  {
    hide Placed, Counted, Reported, Ordered, Logged, Constrained, Barrier, Cleared;
  }

  lemma TakeFrozenMeasure(p: Plan, s: Sched)
    ensures SameRound(p, s, TakeFrozen(s))
  {
    var r := TakeFrozen(s);
    assert (set t | t in p.origin && !r.Gone(t)) == (set t | t in p.origin && !s.Gone(t));
  }

  lemma FrozenTaken(p: Plan, s: Sched, u: Sched)
    requires Inv(p, u) && Closer(p, s, u)
    ensures Inv(p, TakeFrozen(u)) && Nearer(p, s, TakeFrozen(u)) && Work(TakeFrozen(u)) == Work(u)
  {
    hide Inv, Work, Left;
    TakeFrozenKeeps(p, u);
    TakeFrozenMeasure(p, u);
  }

  lemma FrozenRetried(p: Plan, s: Sched, r: Sched)
    requires Inv(p, r) && Nearer(p, s, r) && r.count == 0 && r.deadlock != Some(r.processed)
    ensures Inv(p, RetryFrozen(r)) && Nearer(p, s, RetryFrozen(r)) && Work(RetryFrozen(r)) == Work(r)
  {
    hide Inv, Work, Left;
    RetryFrozenKeeps(p, r);
    var u := r.(deadlock := Some(r.processed));
    NoteMeasure(p, r);
    TakeFrozenMeasure(p, u);
  }

  lemma NoteMeasure(p: Plan, s: Sched)
    ensures Left(p, s.(deadlock := Some(s.processed))) == Left(p, s)
            && Work(s.(deadlock := Some(s.processed))) == Work(s)
  {
    var r := s.(deadlock := Some(s.processed));
    assert (set t | t in p.origin && !r.Gone(t)) == (set t | t in p.origin && !s.Gone(t));
  }

  lemma GroupNearer(p: Plan, s: Sched, u: Sched, v: Sched)
    requires Nearer(p, s, u) && SameBut(p, u, v) && (u.cur < v.cur || v == u)
    ensures Nearer(p, s, v)
  {
    hide Work, Left;
  }

  lemma InterferedView(s: Sched, r: Sched)
    requires Interfered(s, r)
    ensures r.outstanding == s.outstanding && r.frozen == s.frozen && r.current == s.current && r.count == s.count
    ensures r.runAfter == s.runAfter && r.deadlock == s.deadlock && r.processed == s.processed
    ensures s.hasrun.Keys <= r.hasrun.Keys && r.cleared == s.cleared
  {
  }

  lemma CollectedView(p: Plan, s: Sched, r: Sched)
    requires Collected(p, s, r)
    ensures r.count == s.count - 1 && r.runAfter == s.runAfter && (s.stop ==> r.stop)
  {
  }

  lemma FreshTask(p: Plan, s: Sched, t: Task)
    requires Inv(p, s) && s.current == [t]
    ensures t !in s.hasrun && !s.Gone(t) && t in p.origin && t in s.runAfter
  {
    hide Counted, Logged, Constrained, Barrier, Cleared, Stalled;
    OnePlace(p, s, t);
  }

  lemma DecidedReady(p: Plan, s: Sched)
    requires Inv(p, s) && s.Chosen()
    ensures Ready(p, s, s.current[0]) && s.current[0] in p.more
  {
    ChosenReady(p, s);
  }

  /** No further from the end by any measure. */
  ghost predicate NoFurther(p: Plan, s: Sched, r: Sched) {
    && Left(p, r) == Left(p, s) && Work(r) <= Work(s) && GroupsLeft(p, r) == GroupsLeft(p, s)
    && Patience(r) == Patience(s) && r.outstanding == s.outstanding
  }

  lemma ClearMeasure(p: Plan, s: Sched, r: Sched)
    requires Interfered(s, r)
    ensures Clear(r) == r.(cleared := true) && NoFurther(p, s, Clear(r))
  {
    InterferedProgress(p, s, r);
    assert (set t | t in p.origin && !Clear(r).Gone(t)) == (set t | t in p.origin && !r.Gone(t));
  }

  lemma CloserFrom(p: Plan, s: Sched, c: Sched, v: Sched)
    requires NoFurther(p, s, c)
    requires Closer(p, c, v) || (SameRound(p, c, v) && v.outstanding == c.outstanding)
    ensures Closer(p, s, v) || (SameRound(p, s, v) && v.outstanding == s.outstanding)
  {
    hide Left, Work;
  }

  lemma GroupsBound(p: Plan, s: Sched)
    requires Inv(p, s)
    ensures GroupsLeft(p, s) >= 0
  {
    hide Placed, Reported, Ordered, Logged, Constrained, Barrier, Cleared, Stalled;
  }

  lemma StallMeansIdle(p: Plan, s: Sched)
    requires Inv(p, s)
    ensures s.deadlock == Some(s.processed) ==> s.count == 0
  {
    hide Placed, Counted, Reported, Ordered, Logged, Constrained, Barrier, Cleared;
  }

  lemma SmallerSet(a: set<Task>, b: set<Task>, t: Task)
    requires a <= b && t in b && t !in a
    ensures |a| < |b|
  {
    assert b == a + (b - a);
    assert t in b - a;
  }

  lemma LeftDrops(p: Plan, s: Sched, r: Sched, t: Task)
    requires t in p.origin && !s.Gone(t) && r.Gone(t)
    requires forall x :: s.Gone(x) ==> r.Gone(x)
    ensures Left(p, r) < Left(p, s)
  {
    SmallerSet((set x | x in p.origin && !r.Gone(x)), (set x | x in p.origin && !s.Gone(x)), t);
  }

  lemma DispatchCloser(p: Plan, s: Sched, u: Sched, v: Sched, t: Task)
    requires Inv(p, s) && Interfered(s, u) && u.current == s.current == [t] && Interfered(Schedule.Dispatch(u), v)
    ensures Closer(p, s, v)
  {
    hide Inv, Left, Work;
    FreshTask(p, s, t);
    InterferedProgress(p, s, u);
    var r := Schedule.Dispatch(u);
    LeftDrops(p, u, r, t);
    InterferedProgress(p, r, v);
  }

  lemma SkipCloser(p: Plan, s: Sched, u: Sched, t: Task)
    requires Inv(p, s) && Interfered(s, u) && u.current == s.current == [t] && t in p.more
    ensures Closer(p, s, SkipTask(p, u))
  {
    hide Inv, Left, Work;
    FreshTask(p, s, t);
    InterferedProgress(p, s, u);
    LeftDrops(p, u, SkipTask(p, u), t);
  }

  lemma BreakCloser(p: Plan, s: Sched, u: Sched, v: Sched, t: Task)
    requires Inv(p, s) && Interfered(s, u) && u.current == s.current == [t]
    requires exists verbose :: v == Break(p, u, verbose)
    ensures Closer(p, s, v)
  {
    hide Inv, Left, Work;
    FreshTask(p, s, t);
    InterferedProgress(p, s, u);
    LeftDrops(p, u, v, t);
  }

  lemma PostponeNearer(p: Plan, s: Sched, u: Sched, v: Sched)
    requires Interfered(s, u) && |u.current| == 1 && exists front :: v == Schedule.Postpone(u, front)
    ensures Closer(p, s, v) || (SameRound(p, s, v) && v.outstanding == s.outstanding)
  {
    InterferedProgress(p, s, u);
    assert (set t | t in p.origin && !v.Gone(t)) == (set t | t in p.origin && !u.Gone(t));
  }

  lemma TurnCloser(p: Plan, s: Sched, r: Sched, u: Sched, v: Sched)
    requires Nearer(p, s, r) && r.outstanding != [] && r.current == [] && u == Pop(r)
    requires Closer(p, u, v) || (SameRound(p, u, v) && v.outstanding == u.outstanding)
    ensures Closer(p, s, v) || (SameRound(p, s, v) && |v.outstanding| < |s.outstanding|)
  {
    hide Work, Left;
    PopMeasure(p, r);
  }

  lemma PopMeasure(p: Plan, s: Sched)
    requires s.outstanding != []
    ensures SameRound(p, s, Pop(s))
  {
    var r := Pop(s);
    assert (set t | t in p.origin && !r.Gone(t)) == (set t | t in p.origin && !s.Gone(t));
  }
}
