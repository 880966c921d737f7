/** A worker's bookkeeping of its slots (`src/ftq/worker.py`): jobs in flight, runs that outlive their
    timeout, the reaper's suspect slot, and who is talking to Redis. Events interleave freely: each
    is what happens between two awaits of one of the worker's coroutines. */
module WorkerSlots {
  import opened Behaviors
  import opened Sets

  type Task = nat

  datatype RunKind = AsyncRun | ThreadRun | ProcessRun

  /** A job's coroutine waits for its handler's run, or has seen the last of it and is committing,
      retrying or dead-lettering. */
  datatype Phase = Running(kind: RunKind) | Moving

  /** A Redis call somebody is waiting for. A handler makes one at a time. */
  datatype Call = RunCall(t: Task) | BeatCall(t: Task) | MoveCall(t: Task) | FetchCall | MaintenanceCall

  /** `orphans` are the runs nobody waits for any more that have not stopped; `reserved` is the
      `free` of the read or reap under way, and `asked` its suspect slots. */
  datatype Slots = Slots(inFlight: map<Task, Phase>, orphans: set<Task>, suspects: set<Task>,
                         reserved: nat, asked: nat, calls: set<Call>)

  datatype Event =
    | Offer
    | Reply(spawned: map<Task, Phase>, doubtful: set<Task>, again: bool)
    | RunDone(t: Task)
    | TimeOut(t: Task, lingers: bool)
    | OrphanDone(t: Task)
    | TaskDone(t: Task)
    | Begin(call: Call)
    | End(call: Call)
    | Abandon(lingering: set<Task>)

  predicate IsIdle(x: Slots) {
    x == Slots(map[], {}, {}, 0, 0, {})
  }

  predicate IsRunning(x: Slots, t: Task) {
    t in x.inFlight && x.inFlight[t].Running?
  }

  function RunningTasks(x: Slots): set<Task> {
    set t | t in x.inFlight && x.inFlight[t].Running?
  }

  /** The slots the fetch loop may offer: an orphan keeps its slot. */
  function Free(c: nat, x: Slots): int {
    c - |x.inFlight| - |x.orphans|
  }

  predicate Possible(c: nat, x: Slots, a: Event) {
    match a
    case Offer => x.reserved == 0 && FetchCall !in x.calls && 0 < Free(c, x)
    case Reply(spawned, doubtful, _) =>
      && FetchCall in x.calls && |spawned| <= x.reserved
      && spawned.Keys !! x.inFlight.Keys && spawned.Keys !! x.orphans
      && doubtful <= spawned.Keys && |doubtful| <= x.asked
    case RunDone(t) => IsRunning(x, t)
    case TimeOut(t, lingers) => IsRunning(x, t) && (lingers ==> !x.inFlight[t].kind.ProcessRun?)
    case OrphanDone(t) => t in x.orphans
    case TaskDone(t) => t in x.inFlight && x.inFlight[t].Moving? && MoveCall(t) !in x.calls
    case Begin(call) => call !in x.calls && MayCall(x, call)
    case End(call) => call in x.calls && !call.FetchCall?
    case Abandon(lingering) =>
      && x.reserved == 0 && FetchCall !in x.calls
      && forall t :: t in lingering ==> IsRunning(x, t) && !x.inFlight[t].kind.ProcessRun?
  }

  predicate MayCall(x: Slots, call: Call) {
    match call
    case RunCall(t) => IsRunning(x, t) || t in x.orphans
    case BeatCall(t) => IsRunning(x, t)
    case MoveCall(t) => t in x.inFlight && x.inFlight[t].Moving?
    case FetchCall => false
    case MaintenanceCall => true
  }

  function Step(c: nat, x: Slots, a: Event): Slots
    requires Possible(c, x, a)
  {
    match a
    case Offer =>
      x.(reserved := Free(c, x), asked := if x.suspects == {} then 1 else 0, calls := x.calls + {FetchCall})
    case Reply(spawned, doubtful, again) =>
      var left := x.reserved - |spawned|;
      var goesOn := again && 0 < left;
      x.(inFlight := x.inFlight + spawned, suspects := x.suspects + doubtful, asked := 0,
         reserved := if goesOn then left else 0, calls := if goesOn then x.calls else x.calls - {FetchCall})
    case RunDone(t) => x.(inFlight := x.inFlight[t := Moving], calls := x.calls - {RunCall(t), BeatCall(t)})
    case TimeOut(t, lingers) =>
      if lingers then
        x.(inFlight := x.inFlight[t := Moving], orphans := x.orphans + {t}, calls := x.calls - {BeatCall(t)})
      else x.(inFlight := x.inFlight[t := Moving], calls := x.calls - {RunCall(t), BeatCall(t)})
    case OrphanDone(t) => x.(orphans := x.orphans - {t}, calls := x.calls - {RunCall(t)})
    case TaskDone(t) => x.(inFlight := x.inFlight - {t}, suspects := x.suspects - {t})
    case Begin(call) => x.(calls := x.calls + {call})
    case End(call) => x.(calls := x.calls - {call})
    case Abandon(lingering) =>
      Slots(map[], x.orphans + lingering, {}, 0, 0,
            set k | k in x.calls && (k.MaintenanceCall? || (k.RunCall? && k.t in x.orphans + lingering)))
  }

  ghost predicate Steps(c: nat, x: Slots, a: Event, y: Slots) {
    Possible(c, x, a) && y == Step(c, x, a)
  }

  ghost function StepsOf(c: nat): (Slots, Event, Slots) -> bool {
    (x, a, y) => Steps(c, x, a, y)
  }

  // ---------------------------------------------------------------- the invariant

  /** Runs and orphans fit in the slots, with room for what the fetch loop may still start; and so
      do the jobs. (Both together may exceed them: a timed-out job can be moving its entry while
      its run still lingers.) */
  predicate Fits(c: nat, x: Slots) {
    |RunningTasks(x)| + |x.orphans| + x.reserved <= c && |x.inFlight| + x.reserved <= c
  }

  ghost predicate Orderly(x: Slots) {
    && RunningTasks(x) !! x.orphans
    && (forall k :: k in x.calls ==> k.FetchCall? || MayCall(x, k))
    && x.suspects <= x.inFlight.Keys && |x.suspects| <= 1 && x.asked <= 1
    && (x.asked == 1 ==> x.suspects == {})
  }

  ghost predicate SlotsInv(c: nat, x: Slots) {
    Fits(c, x) && Orderly(x)
  }

  lemma RunningAtMost(x: Slots)
    ensures |RunningTasks(x)| <= |x.inFlight|
  {
    SubsetSize(RunningTasks(x), x.inFlight.Keys);
  }

  lemma ReplyFits(c: nat, x: Slots, a: Event)
    requires SlotsInv(c, x) && a.Reply? && Possible(c, x, a)
    ensures Fits(c, Step(c, x, a))
  {
    var y := Step(c, x, a);
    assert y.inFlight.Keys == x.inFlight.Keys + a.spawned.Keys;
    assert |y.inFlight| == |x.inFlight| + |a.spawned|;
    assert RunningTasks(y) <= RunningTasks(x) + a.spawned.Keys;
    SubsetSize(RunningTasks(y), RunningTasks(x) + a.spawned.Keys);
  }

  lemma RunEnds(x: Slots, t: Task)
    requires IsRunning(x, t)
    ensures var y := x.(inFlight := x.inFlight[t := Moving]);
            |y.inFlight| == |x.inFlight| && RunningTasks(y) == RunningTasks(x) - {t} && t in RunningTasks(x)
  {
    assert x.inFlight[t := Moving].Keys == x.inFlight.Keys;
  }

  lemma RunEndFits(c: nat, x: Slots, a: Event)
    requires SlotsInv(c, x) && (a.RunDone? || a.TimeOut?) && Possible(c, x, a)
    ensures Fits(c, Step(c, x, a))
  {
    RunEnds(x, a.t);
    assert RunningTasks(Step(c, x, a)) == RunningTasks(x) - {a.t};
  }

  lemma LeaveFits(c: nat, x: Slots, a: Event)
    requires SlotsInv(c, x) && (a.TaskDone? || a.Abandon?) && Possible(c, x, a)
    ensures Fits(c, Step(c, x, a))
  {
    var y := Step(c, x, a);
    if a.TaskDone? {
      assert RunningTasks(y) == RunningTasks(x);
      SubsetSize(y.inFlight.Keys, x.inFlight.Keys);
    } else {
      assert a.lingering <= RunningTasks(x) && RunningTasks(y) == {};
      SubsetSize(a.lingering, RunningTasks(x));
    }
  }

  /** What an event takes from the free slots: a slot for each job started, and one for a run that outlives
      its time-out; each comes back when the job or that run is over, and not before. */
  function SlotsTaken(a: Event): int
    requires !a.Abandon?
  {
    match a
    case Reply(spawned, _, _) => |spawned|
    case TimeOut(_, lingers) => if lingers then 1 else 0
    case OrphanDone(_) => -1
    case TaskDone(_) => -1
    case _ => 0
  }

  lemma SlotsBalance(c: nat, x: Slots, a: Event, y: Slots)
    requires SlotsInv(c, x) && Steps(c, x, a, y) && !a.Abandon?
    ensures Free(c, y) == Free(c, x) - SlotsTaken(a)
  {
    match a
    case Reply(spawned, _, _) => assert y.inFlight.Keys == x.inFlight.Keys + spawned.Keys;
    case RunDone(t) => assert y.inFlight.Keys == x.inFlight.Keys;
    case TimeOut(t, _) =>
      assert y.inFlight.Keys == x.inFlight.Keys && t in RunningTasks(x);
    case TaskDone(t) => assert y.inFlight.Keys == x.inFlight.Keys - {t};
    case _ =>
  }

  /** The fetch loop offers every slot that is not taken, and asks for a suspect exactly when it has none. */
  lemma OfferFillsUp(c: nat, x: Slots, y: Slots)
    requires SlotsInv(c, x) && Steps(c, x, Offer, y)
    ensures |y.inFlight| + |y.orphans| + y.reserved == c && y.asked + |y.suspects| == 1
    ensures y.inFlight == x.inFlight && y.orphans == x.orphans && y.suspects == x.suspects
  {
    if x.suspects != {} {
      var t :| t in x.suspects;
      assert |x.suspects - {t}| >= 0;
    }
  }

  lemma StepFits(c: nat, x: Slots, a: Event)
    requires SlotsInv(c, x) && Possible(c, x, a)
    ensures Fits(c, Step(c, x, a))
  {
    if a.Reply? {
      ReplyFits(c, x, a);
    } else if a.RunDone? || a.TimeOut? {
      RunEndFits(c, x, a);
    } else if a.TaskDone? || a.Abandon? {
      LeaveFits(c, x, a);
    } else {
      RunningAtMost(x);
      assert RunningTasks(Step(c, x, a)) == RunningTasks(x);
    }
  }

  /** Whoever was talking to Redis before a reply still may. */
  lemma ReplyOrderly(c: nat, x: Slots, a: Event)
    requires SlotsInv(c, x) && a.Reply? && Possible(c, x, a)
    ensures Orderly(Step(c, x, a))
  {
    var y := Step(c, x, a);
    assert forall t :: t in x.inFlight ==> t in y.inFlight && y.inFlight[t] == x.inFlight[t];
    forall k | k in y.calls && !k.FetchCall? ensures MayCall(y, k) {
      assert MayCall(x, k);
    }
    assert x.suspects == {} ==> y.suspects == a.doubtful;
  }

  /** A run that ends or is given up takes its heartbeat with it, and its own call unless it lingers. */
  lemma RunEndsOrderly(c: nat, x: Slots, a: Event)
    requires SlotsInv(c, x) && (a.RunDone? || a.TimeOut?) && Possible(c, x, a)
    ensures Orderly(Step(c, x, a))
  {
    var y := Step(c, x, a);
    RunEnds(x, a.t);
    forall k | k in y.calls && !k.FetchCall? ensures MayCall(y, k) {
      assert MayCall(x, k);
    }
  }

  lemma OtherOrderly(c: nat, x: Slots, a: Event)
    requires SlotsInv(c, x) && (a.OrphanDone? || a.TaskDone? || a.Abandon?) && Possible(c, x, a)
    ensures Orderly(Step(c, x, a))
  {
    var y := Step(c, x, a);
    SubsetSize(y.suspects, x.suspects);
    forall k | k in y.calls && !k.FetchCall? ensures MayCall(y, k) {
      assert MayCall(x, k);
    }
  }

  lemma StepOrderly(c: nat, x: Slots, a: Event)
    requires SlotsInv(c, x) && Possible(c, x, a)
    ensures Orderly(Step(c, x, a))
  {
    if a.Reply? {
      ReplyOrderly(c, x, a);
    } else if a.RunDone? || a.TimeOut? {
      RunEndsOrderly(c, x, a);
    } else if a.OrphanDone? || a.TaskDone? || a.Abandon? {
      OtherOrderly(c, x, a);
    } else {
      var y := Step(c, x, a);
      assert RunningTasks(y) == RunningTasks(x);
    }
  }

  // ---------------------------------------------------------------- connections

  const MIN_POOL_CONNECTIONS := 100
  const WORKER_LOOP_CONNECTIONS := 2

  /** `Settings.redis_max_connections`. */
  function MaxConnections(c: nat): nat {
    var needed := 2 * c + WORKER_LOOP_CONNECTIONS;
    if needed < MIN_POOL_CONNECTIONS then MIN_POOL_CONNECTIONS else needed
  }

  /** A set of calls is no larger than the set of tasks they are made for. */
  lemma {:induction false} CallsPerTask(calls: set<Call>, tasks: set<Task>, taskOf: Call -> Task)
    requires forall k :: k in calls ==> taskOf(k) in tasks
    requires forall k, m :: k in calls && m in calls && taskOf(k) == taskOf(m) ==> k == m
    ensures |calls| <= |tasks|
    decreases |calls|
  {
    if calls != {} {
      var k :| k in calls;
      CallsPerTask(calls - {k}, tasks - {taskOf(k)}, taskOf);
    }
  }

  function TaskOf(k: Call): Task {
    if k.RunCall? || k.BeatCall? || k.MoveCall? then k.t else 0
  }

  function RunCalls(x: Slots): set<Call> {
    set t | t in RunningTasks(x) + x.orphans :: RunCall(t)
  }

  function BeatCalls(x: Slots): set<Call> {
    set t | t in RunningTasks(x) :: BeatCall(t)
  }

  function MoveCalls(x: Slots): set<Call> {
    set t | t in x.inFlight.Keys - RunningTasks(x) :: MoveCall(t)
  }

  lemma RunCallersAtMost(x: Slots)
    requires RunningTasks(x) !! x.orphans
    ensures |RunCalls(x)| <= |RunningTasks(x)| + |x.orphans|
  {
    CallsPerTask(RunCalls(x), RunningTasks(x) + x.orphans, TaskOf);
  }

  lemma JobCallersAtMost(x: Slots)
    ensures |BeatCalls(x)| + |MoveCalls(x)| <= |x.inFlight|
  {
    CallsPerTask(BeatCalls(x), RunningTasks(x), TaskOf);
    CallsPerTask(MoveCalls(x), x.inFlight.Keys - RunningTasks(x), TaskOf);
    assert x.inFlight.Keys == RunningTasks(x) + (x.inFlight.Keys - RunningTasks(x));
  }

  lemma CallsAreCallers(x: Slots)
    requires Orderly(x)
    ensures x.calls <= RunCalls(x) + BeatCalls(x) + MoveCalls(x) + {FetchCall, MaintenanceCall}
  {
    forall k | k in x.calls ensures k in RunCalls(x) + BeatCalls(x) + MoveCalls(x) + {FetchCall, MaintenanceCall} {
      assert k.FetchCall? || MayCall(x, k);
    }
  }

  /** Everyone who could be talking to Redis at once has a connection of their own. */
  lemma ConnectionsSuffice(c: nat, x: Slots)
    requires SlotsInv(c, x)
    ensures |x.calls| <= 2 * c + WORKER_LOOP_CONNECTIONS <= MaxConnections(c)
  {
    RunCallersAtMost(x);
    JobCallersAtMost(x);
    CallsAreCallers(x);
    SubsetSize(x.calls, RunCalls(x) + BeatCalls(x) + MoveCalls(x) + {FetchCall, MaintenanceCall});
  }

  // ---------------------------------------------------------------- over whole runs

  ghost function SlotsInvOf(c: nat): Slots -> bool {
    x => SlotsInv(c, x)
  }

  lemma SlotsAlways(c: nat, states: seq<Slots>, acts: seq<Event>, i: nat)
    requires IsExecution((x: Slots) => IsIdle(x), StepsOf(c), states, acts) && i < |states|
    ensures SlotsInv(c, states[i])
  {
    forall x | IsIdle(x) ensures SlotsInvOf(c)(x) {
      assert RunningTasks(x) == {};
    }
    forall x, a, y | SlotsInvOf(c)(x) && StepsOf(c)(x, a, y) ensures SlotsInvOf(c)(y) {
      StepFits(c, x, a);
      StepOrderly(c, x, a);
    }
    Always((x: Slots) => IsIdle(x), StepsOf(c), SlotsInvOf(c), states, acts, i);
    assert SlotsInvOf(c)(states[i]);
  }

  /** The threads in use: runs still waited for, and orphans. */
  function Threads(x: Slots): set<Task> {
    (set t | t in x.inFlight && x.inFlight[t] == Running(ThreadRun)) + x.orphans
  }

  /** In every interleaving: never more jobs in flight than `concurrency`; never more threads busy
      than the pool has, so a blocking handler never waits for one; at most one suspect; and never
      more Redis connections in use than the client's pool holds. */
  lemma WithinLimits(c: nat, states: seq<Slots>, acts: seq<Event>, i: nat)
    requires IsExecution((x: Slots) => IsIdle(x), StepsOf(c), states, acts) && i < |states|
    ensures |states[i].inFlight| <= c && |Threads(states[i])| <= c && |states[i].suspects| <= 1
    ensures |states[i].calls| <= MaxConnections(c)
  {
    SlotsAlways(c, states, acts, i);
    var x := states[i];
    ConnectionsSuffice(c, x);
    SubsetSize(Threads(x), RunningTasks(x) + x.orphans);
  }
}
