/** waflib/Runner.py as a state machine. `Parallel` keeps its tasks in lists and queues while worker
    threads run some of them; `Sched` is one snapshot of all of that, and every atomic step of the main
    thread or of a worker is a function on snapshots. */
module Schedule {
  import opened Basics
  import opened Graphs
  import opened TaskOrder

  const GAP := 10

  /** `hasrun` of a task; a task that has not run has no entry. */
  datatype Status = Missing | Crashed | Raised | Skipped | Success

  datatype Event = Queue(task: Task) | Begin(task: Task) | End(task: Task, status: Status)
                 | Skip(task: Task) | Broke(task: Task, status: Status)

  datatype Stage = Idle | Queued | Started | Done(status: Status)

  datatype Origin = InGroup(group: nat, at: nat) | SpawnedBy(parent: Task, at: nat)

  /** What a build is given: the groups in order, the further tasks each task turns out to have in its
      `more_tasks`, and the files and class of every task. `origin` says where a task is listed,
      `root` in which group its chain of spawners starts, `depth` how long that chain is. */
  datatype Plan = Plan(groups: seq<seq<Task>>, more: map<Task, seq<Task>>, info: map<Task, Info>,
                       origin: map<Task, Origin>, root: map<Task, nat>, depth: map<Task, nat>,
                       keep: nat, numjobs: nat)
  {
    function All(): set<Task> { origin.Keys }

    ghost predicate Lists(t: Task, o: Origin) {
      match o
      case InGroup(i, k) => i < |groups| && k < |groups[i]| && groups[i][k] == t
      case SpawnedBy(q, k) => q in more && k < |more[q]| && more[q][k] == t
    }

    /** Every task is listed in exactly one place. */
    ghost predicate Valid() {
      && numjobs >= 1
      && more.Keys == info.Keys == root.Keys == depth.Keys == All()
      && (forall t, o :: Lists(t, o) <==> t in origin && origin[t] == o)
      && (forall t :: t in origin && origin[t].InGroup? ==> root[t] == origin[t].group)
      && (forall t :: t in origin && origin[t].SpawnedBy? ==>
           var q := origin[t].parent; q in origin && root[q] == root[t] && depth[q] < depth[t])
    }

    ghost predicate NoMore() {
      forall t :: t in more ==> more[t] == []
    }
  }

  /** A snapshot. `ready` is the queue the workers read, `out` the one they answer on. A worker that has
      taken a task off `ready` is in turn: `fetched` (it has not yet looked at `stop`), `running`, and
      after a failure `failed` (`hasrun` is set, `error_handler` is not yet called) and `stopping`
      (`stop` has been dealt with, `error` has not); then `returning`. `current` is the local variable of
      `start`, and `cleared` says that `start` has since found `stop` unset. `retired` are the tasks the
      scheduler is finished with, `expanded` those whose `more_tasks` were added, `broken` those whose
      `runnable_status` raised. */
  datatype Sched = Sched(
    outstanding: seq<Task>, frozen: seq<Task>, current: seq<Task>, cleared: bool,
    ready: seq<Task>, fetched: set<Task>, running: set<Task>, failed: set<Task>, stopping: set<Task>,
    returning: set<Task>, out: seq<Task>,
    retired: seq<Task>, expanded: set<Task>, broken: set<Task>,
    count: int, processed: int, deadlock: Option<int>, stop: bool, error: seq<Task>, cur: nat,
    runAfter: RunAfter, hasrun: map<Task, Status>, log: seq<Event>)
  {
    ghost function Busy(): set<Task> {
      fetched + running + failed + stopping + returning
    }

    ghost function Workers(): nat {
      |fetched| + |running| + |failed| + |stopping| + |returning|
    }

    ghost function InFlight(): multiset<Task> {
      multiset(ready) + multiset(fetched) + multiset(running) + multiset(failed) + multiset(stopping)
      + multiset(returning) + multiset(out)
    }

    ghost function Places(): multiset<Task> {
      multiset(outstanding) + multiset(frozen) + multiset(current) + InFlight() + multiset(retired)
    }

    /** Dispatched, skipped or given up: the scheduler will not look at its status again. */
    ghost predicate Gone(t: Task) {
      t in ready || t in Busy() || t in out || t in retired
    }

    ghost predicate Blocked(t: Task) {
      t in runAfter && exists p :: p in runAfter[t] && p !in hasrun
    }

    /** `start` has a task in hand whose `run_after` are all done, and may decide about it. */
    ghost predicate Chosen() {
      |current| == 1 && cleared && current[0] in runAfter && runAfter[current[0]] <= hasrun.Keys
    }
  }

  ghost function Taken(p: Plan, s: Sched): set<Task> {
    set t | t in p.origin &&
      match p.origin[t] case InGroup(i, _) => i < s.cur case SpawnedBy(q, _) => q in s.expanded
  }

  // --- what has happened to a task, read off the log

  ghost function StageOf(log: seq<Event>, t: Task): Stage {
    if log == [] then Idle
    else
      var e := log[|log| - 1];
      if e.task != t then StageOf(log[..|log| - 1], t)
      else match e
        case Queue(_) => Queued
        case Begin(_) => Started
        case End(_, st) => Done(st)
        case Skip(_) => Done(Skipped)
        case Broke(_, st) => Done(st)
  }

  predicate Decision(e: Event) {
    e.Queue? || e.Skip? || e.Broke?
  }

  ghost predicate EarlierGroup(p: Plan, q: Task, t: Task) {
    q in p.root && t in p.root && p.root[q] < p.root[t]
  }

  /** The tasks a decision on `t` has to wait for. */
  ghost predicate Before(p: Plan, ra: RunAfter, q: Task, t: Task) {
    || (t in ra && q in ra[t])
    || (p.NoMore() && EarlierGroup(p, q, t))
  }

  /** An event finds its task in the stage it starts from. */
  ghost predicate InStage(log: seq<Event>, e: Event) {
    && (Decision(e) ==> StageOf(log, e.task) == Idle)
    && (e.Begin? ==> StageOf(log, e.task) == Queued)
    && (e.End? ==> StageOf(log, e.task) == Started && e.status != Skipped)
  }

  /** Every task goes through its stages in order, at most once. */
  ghost predicate Lifecycle(log: seq<Event>) {
    forall i :: 0 <= i < |log| ==> InStage(log[..i], log[i])
  }

  /** One more event is in order: besides, a decision finds everything that goes before already done. */
  ghost predicate Follows(p: Plan, ra: RunAfter, log: seq<Event>, e: Event) {
    && InStage(log, e)
    && (Decision(e) ==> forall q :: Before(p, ra, q, e.task) ==> StageOf(log, q).Done?)
  }

  ghost predicate OrderedLog(p: Plan, ra: RunAfter, log: seq<Event>) {
    forall i :: 0 <= i < |log| ==> Follows(p, ra, log[..i], log[i])
  }

  // --- the invariant

  ghost predicate Placed(p: Plan, s: Sched) {
    s.Places() == multiset(Taken(p, s))
  }

  ghost predicate Counted(p: Plan, s: Sched) {
    && s.count == |s.ready| + s.Workers() + |s.out|
    && s.count <= p.numjobs * GAP + 1
    && s.Workers() <= p.numjobs
    && s.cur <= |p.groups|
  }

  ghost predicate Reported(p: Plan, s: Sched) {
    && (forall t :: t in s.hasrun ==> t in s.failed + s.stopping + s.returning || t in s.out || t in s.retired)
    && (forall t :: t in s.failed + s.stopping + s.returning ==> t in s.hasrun)
    && (forall t :: t in s.failed + s.stopping ==> s.hasrun[t] != Success && s.hasrun[t] != Skipped)
    && (forall t :: (t in s.out || t in s.retired) && t !in s.hasrun ==> s.stop)
    && (forall t :: t in s.expanded ==> t in s.hasrun && t in s.retired)
    && (forall t :: t in s.broken ==> t in s.hasrun && t in s.retired && t !in s.expanded)
    && (p.keep < 2 && !s.stop ==> s.broken == {})
    && (forall t :: t in s.retired && t !in s.expanded && t !in s.broken ==> s.stop)
  }

  /** `t` is held up by its `run_after` and, before it exists at all, by the task that creates it. */
  ghost function Waits(p: Plan, ra: RunAfter): Graph<Task> {
    map t | t in ra :: ra[t] + (if t in p.origin && p.origin[t].SpawnedBy? then {p.origin[t].parent} else {})
  }

  ghost predicate Ordered(p: Plan, s: Sched) {
    && s.runAfter.Keys == p.All()
    && (forall t :: t in s.runAfter && s.Gone(t) ==> s.runAfter[t] <= s.hasrun.Keys)
    && Closed(Waits(p, s.runAfter), s.hasrun.Keys)
    && !Cyclic(Waits(p, s.runAfter), s.hasrun.Keys)
  }

  /** `q` and `t` are tasks of one group, and `q` outputs a file `t` reads, or the class of one asks for `q`
      to go first and neither asks for the reverse. */
  ghost predicate Precedes(p: Plan, q: Task, t: Task) {
    && q in p.origin && t in p.origin && p.origin[q].InGroup? && p.origin[t].InGroup?
    && p.origin[q].group == p.origin[t].group
    && q in p.info && t in p.info
    && (|| (exists n :: n in p.info[q].outputs && (n in p.info[t].inputs || n in p.info[t].depNodes))
        || (var a, b := p.info[q].kind, p.info[t].kind;
            && ((exists x :: x in a.extOut && x in b.extIn) || a.name in b.after || b.name in a.before)
            && !((exists x :: x in b.extOut && x in a.extIn) || b.name in a.after || a.name in b.before)))
  }

  ghost predicate Constrained(p: Plan, s: Sched) {
    forall q, t :: Precedes(p, q, t) && p.origin[t].group < s.cur ==> t in s.runAfter && q in s.runAfter[t]
  }

  ghost predicate Stalled(s: Sched) {
    s.deadlock.Some? ==>
      && s.deadlock.value <= s.processed
      && (s.deadlock.value == s.processed ==> s.count == 0 && forall f :: f in s.frozen ==> s.Blocked(f))
  }

  ghost predicate Barrier(p: Plan, s: Sched) {
    p.NoMore() ==> forall t :: t in p.root && p.root[t] + 1 < s.cur ==> t in s.retired
  }

  /** Once `start` has found `stop` unset, the tasks of all earlier groups are done. */
  ghost predicate Cleared(p: Plan, s: Sched) {
    s.cleared && p.NoMore() ==> forall q, t :: t in s.current && EarlierGroup(p, q, t) ==> q in s.hasrun
  }

  ghost predicate Logged(p: Plan, s: Sched) {
    && OrderedLog(p, s.runAfter, s.log)
    && (forall t :: t in s.hasrun <==> StageOf(s.log, t).Done?)
    && (forall t :: t in s.hasrun ==> StageOf(s.log, t) == Done(s.hasrun[t]))
    && (forall t :: t in s.ready || t in s.fetched ==> StageOf(s.log, t) == Queued)
    && (forall t :: t in s.running ==> StageOf(s.log, t) == Started)
    && (forall t :: !s.Gone(t) ==> StageOf(s.log, t) == Idle)
  }

  ghost predicate Inv(p: Plan, s: Sched) {
    && p.Valid()
    && Placed(p, s) && Counted(p, s) && Reported(p, s) && Ordered(p, s) && Constrained(p, s)
    && Stalled(s) && Barrier(p, s) && Cleared(p, s) && Logged(p, s)
  }

  // --- worker steps (Task.process)

  ghost function Fetch(s: Sched): Sched
    requires s.ready != []
  {
    s.(ready := s.ready[1..], fetched := s.fetched + {s.ready[0]})
  }

  /** `if m.stop`: hand the task back untouched; otherwise `run` begins. */
  ghost function Enter(s: Sched, t: Task): Sched {
    if s.stop then s.(fetched := s.fetched - {t}, out := s.out + [t])
    else s.(fetched := s.fetched - {t}, running := s.running + {t}, log := s.log + [Begin(t)])
  }

  ghost function Finish(s: Sched, t: Task, st: Status): Sched {
    s.(running := s.running - {t}, hasrun := s.hasrun[t := st], log := s.log + [End(t, st)],
       returning := if st == Success then s.returning + {t} else s.returning,
       failed := if st == Success then s.failed else s.failed + {t})
  }

  ghost function RaiseStop(p: Plan, s: Sched, t: Task): Sched {
    s.(failed := s.failed - {t}, stopping := s.stopping + {t}, stop := s.stop || p.keep == 0)
  }

  ghost function Report(s: Sched, t: Task): Sched {
    s.(stopping := s.stopping - {t}, returning := s.returning + {t}, error := s.error + [t])
  }

  ghost function HandBack(s: Sched, t: Task): Sched {
    s.(returning := s.returning - {t}, out := s.out + [t])
  }

  ghost predicate WorkerStep(p: Plan, s: Sched, r: Sched) {
    || (s.ready != [] && s.Workers() < p.numjobs && r == Fetch(s))
    || (exists t :: t in s.fetched && r == Enter(s, t))
    || (exists t, st :: t in s.running && st != Skipped && r == Finish(s, t, st))
    || (exists t :: t in s.failed && r == RaiseStop(p, s, t))
    || (exists t :: t in s.stopping && r == Report(s, t))
    || (exists t :: t in s.returning && r == HandBack(s, t))
  }

  // --- steps of the main thread

  /** `get_out`: one answer is taken off `out`; unless the build is stopping its `more_tasks` join in. */
  ghost function GetOut(p: Plan, s: Sched): Sched
    requires s.out != [] && s.out[0] in p.more
  {
    var t := s.out[0];
    var r := s.(out := s.out[1..], retired := s.retired + [t], count := s.count - 1);
    if s.stop then r else r.(outstanding := s.outstanding + p.more[t], expanded := s.expanded + {t})
  }

  ghost function Pop(s: Sched): Sched
    requires s.outstanding != []
  {
    s.(current := [s.outstanding[0]], cleared := false, outstanding := s.outstanding[1..])
  }

  /** `if self.stop: break`, when `stop` is unset. */
  ghost function Clear(s: Sched): Sched {
    s.(cleared := true)
  }

  ghost function Dispatch(s: Sched): Sched
    requires |s.current| == 1
  {
    var t := s.current[0];
    s.(current := [], ready := s.ready + [t], count := s.count + 1, processed := s.processed + 1,
       log := s.log + [Queue(t)])
  }

  ghost function Postpone(s: Sched, front: bool): Sched
    requires |s.current| == 1
  {
    s.(current := [], frozen := if front then s.current + s.frozen else s.frozen + s.current)
  }

  ghost function SkipTask(p: Plan, s: Sched): Sched
    requires |s.current| == 1 && s.current[0] in p.more
  {
    var t := s.current[0];
    s.(current := [], retired := s.retired + [t], processed := s.processed + 1,
       hasrun := s.hasrun[t := Skipped], outstanding := s.outstanding + p.more[t], expanded := s.expanded + {t},
       log := s.log + [Skip(t)])
  }

  /** `task_status` when `runnable_status` raises. With `keep` the task is passed over as if skipped, and
      from `keep == 2` on the build goes on, with an error on record only in a verbose build. */
  ghost function Break(p: Plan, s: Sched, verbose: bool): Sched
    requires |s.current| == 1
  {
    var t := s.current[0];
    var passed := !s.stop && p.keep != 0;
    var st := if passed then Skipped else Raised;
    s.(current := [], retired := s.retired + [t], processed := s.processed + 1, hasrun := s.hasrun[t := st],
       stop := if passed then p.keep == 1 else s.stop || p.keep == 0,
       error := if !passed || verbose || (p.keep == 1 && s.error == []) then s.error + [t] else s.error,
       broken := s.broken + {t}, log := s.log + [Broke(t, st)])
  }

  ghost function TakeFrozen(s: Sched): Sched {
    s.(outstanding := s.outstanding + s.frozen, frozen := [])
  }

  /** Nothing is in flight: the frozen tasks are tried again, after a note of how far the build has got. */
  ghost function RetryFrozen(s: Sched): Sched {
    TakeFrozen(s.(deadlock := Some(s.processed)))
  }

  /** The iterator hands out group `i`, past groups that are empty, or nothing when `i` is past the end. */
  ghost function TakeGroup(p: Plan, s: Sched, i: nat, ra: RunAfter): Sched {
    if i < |p.groups| then s.(outstanding := s.outstanding + p.groups[i], cur := i + 1, runAfter := ra)
    else s.(cur := |p.groups|, runAfter := ra)
  }

  ghost predicate Constrains(p: Plan, i: nat, ra: RunAfter, r: RunAfter)
    requires i < |p.groups|
  {
    && r.Keys == ra.Keys
    && (forall t :: t in r && t !in p.groups[i] ==> r[t] == ra[t])
    && (forall t :: t in r && t in p.groups[i] ==> ra[t] <= r[t] && r[t] <= ra[t] + Elements(p.groups[i]))
    && (forall q, t :: Precedes(p, q, t) && p.origin[t].group == i ==> t in r && q in r[t])
  }

  ghost predicate HandsOut(p: Plan, s: Sched, i: nat, ra: RunAfter) {
    && s.cur <= i <= |p.groups|
    && (forall k :: s.cur <= k < i ==> p.groups[k] == [])
    && (if i < |p.groups| then Constrains(p, i, s.runAfter, ra) else ra == s.runAfter)
  }

  /** Everything a decision on `t` waits for is done. */
  ghost predicate Ready(p: Plan, s: Sched, t: Task) {
    && t in s.runAfter
    && forall q :: Before(p, s.runAfter, q, t) ==> q in s.hasrun
  }

  /** What is outstanding when a group is taken: the `more_tasks` of the answer collected last, if any. */
  ghost predicate OnlyMore(p: Plan, s: Sched) {
    || s.outstanding == []
    || (s.retired != [] && var t := s.retired[|s.retired| - 1]; t in p.more && s.outstanding == p.more[t])
  }

  /** `start` waits for an answer when it has nothing to look at or too much is in flight, and at the end. */
  ghost predicate Collects(p: Plan, s: Sched) {
    && s.out != [] && s.out[0] in p.more
    && (s.stop || (s.current == [] && (s.outstanding == [] || s.count > p.numjobs * GAP)))
  }

  /** The steps `start` takes. It decides about one task at a time, after a look at `stop` and at the
      `run_after` of the task, and takes a new group only when nothing is frozen or in flight. */
  ghost predicate MainStep(p: Plan, s: Sched, r: Sched) {
    || (Collects(p, s) && r == GetOut(p, s))
    || (s.outstanding != [] && s.current == [] && r == Pop(s))
    || (|s.current| == 1 && !s.stop && r == Clear(s))
    || (s.Chosen() && s.count <= p.numjobs * GAP && r == Dispatch(s))
    || (s.Chosen() && s.current[0] in p.more && r == SkipTask(p, s))
    || (s.Chosen() && exists verbose :: r == Break(p, s, verbose))
    || (|s.current| == 1 && s.cleared && (s.deadlock == Some(s.processed) ==> s.Blocked(s.current[0]))
        && exists front :: r == Postpone(s, front))
    || (s.current == [] && OnlyMore(p, s) && r == TakeFrozen(s))
    || (s.current == [] && s.outstanding == [] && s.count == 0 && s.deadlock != Some(s.processed)
        && r == RetryFrozen(s))
    || (s.frozen == [] && s.current == [] && s.count == 0 && OnlyMore(p, s)
        && exists i, ra :: HandsOut(p, s, i, ra) && r == TakeGroup(p, s, i, ra))
  }

  ghost function StartSched(ra: RunAfter): Sched {
    Sched([], [], [], false, [], {}, {}, {}, {}, {}, [], [], {}, {}, 0, 1, None, false, [], 0, ra, map[], [])
  }

  /** The snapshots of a build, every worker interleaved in any way with the main thread. */
  ghost predicate Run(p: Plan, run: seq<Sched>) {
    && run != [] && run[0] == StartSched(run[0].runAfter) && run[0].runAfter.Keys == p.All()
    && forall i :: 0 <= i < |run| - 1 ==> Next(p, run[i], run[i + 1])
  }

  /** With one job tasks are processed on the spot: the main thread goes on when its worker is through. */
  ghost predicate Next(p: Plan, s: Sched, r: Sched) {
    WorkerStep(p, s, r) || (MainStep(p, s, r) && (p.numjobs == 1 ==> s.ready == [] && s.Busy() == {}))
  }
}
