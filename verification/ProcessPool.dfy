/** Runs in the worker's process pool (`src/ftq/worker.py`): who is inside which pool, whose clock is
    running, and who pays for a pool that is reset or breaks. Events interleave freely. That a pool
    turns ready and that its waiting runs enter it is one event. */
module ProcessPool {
  import opened QueueTypes
  import opened Behaviors

  type Run = nat
  type Pool = nat

  /** A run has no clock while it waits for its pool's children to be ready. */
  datatype Place = Waiting(pool: Pool) | Inside(pool: Pool, since: int)

  /** Why a run ended. Each cause but the first costs the job an attempt. */
  datatype Cause = OwnOutcome | OwnTimeout(after: int) | PoolBroke(pool: Pool) | StartFailed(pool: Pool)

  /** `killed` are the pools this worker reset, `died` those that broke by themselves. */
  datatype Pools = Pools(runs: map<Run, Place>, ended: map<Run, Cause>, current: Option<Pool>, next: Pool,
                         ready: set<Pool>, failed: set<Pool>, killed: set<Pool>, died: set<Pool>)

  datatype Event =
    | Acquire(r: Run, now: int)
    | PoolReady(now: int)
    | PoolFails
    | PoolDies(p: Pool)
    | TimeOut(r: Run, now: int)
    | Broken(r: Run, now: int)
    | Finish(r: Run)

  predicate IsIdle(x: Pools) {
    x == Pools(map[], map[], None, 0, {}, {}, {}, {})
  }

  predicate IsWarming(x: Pools) {
    x.current.Some? && x.current.value !in x.ready && x.current.value !in x.failed
  }

  predicate IsInside(x: Pools, r: Run) {
    r in x.runs && x.runs[r].Inside?
  }

  /** `size` children; `limit` gives each run's timeout. */
  predicate Possible(size: nat, limit: Run -> nat, x: Pools, a: Event) {
    match a
    case Acquire(r, _) => r !in x.runs && r !in x.ended && |x.runs| < size
    case PoolReady(_) => IsWarming(x)
    case PoolFails => IsWarming(x)
    case PoolDies(p) => p in x.ready
    case TimeOut(r, now) => IsInside(x, r) && limit(r) <= now - x.runs[r].since
    case Broken(r, _) => IsInside(x, r) && x.runs[r].pool in x.killed + x.died
    case Finish(r) => IsInside(x, r)
  }

  function End(x: Pools, r: Run, why: Cause): Pools {
    x.(runs := x.runs - {r}, ended := x.ended[r := why])
  }

  /** `_ready_processes`, up to the point where the run waits or goes in. */
  function Enter(x: Pools, r: Run, now: int): Pools {
    match x.current
    case None => x.(runs := x.runs[r := Waiting(x.next)], current := Some(x.next), next := x.next + 1)
    case Some(p) =>
      if p in x.failed then End(x, r, StartFailed(p))
      else x.(runs := x.runs[r := if p in x.ready then Inside(p, now) else Waiting(p)])
  }

  function Forget(current: Option<Pool>, p: Pool): Option<Pool> {
    if current == Some(p) then None else current
  }

  function Waiters(x: Pools, p: Pool): set<Run> {
    set r | r in x.runs && x.runs[r] == Waiting(p)
  }

  function Step(size: nat, limit: Run -> nat, x: Pools, a: Event): Pools
    requires Possible(size, limit, x, a)
  {
    match a
    case Acquire(r, now) => Enter(x, r, now)
    case PoolReady(now) =>
      var p := x.current.value;
      x.(ready := x.ready + {p}, runs := map r | r in x.runs :: if x.runs[r] == Waiting(p) then Inside(p, now) else x.runs[r])
    case PoolFails =>
      var p := x.current.value;
      x.(failed := x.failed + {p}, runs := x.runs - Waiters(x, p),
         ended := x.ended + map r | r in Waiters(x, p) :: StartFailed(p))
    case PoolDies(p) => x.(died := x.died + {p})
    case TimeOut(r, now) =>
      var p := x.runs[r].pool;
      End(x, r, OwnTimeout(now - x.runs[r].since)).(killed := x.killed + {p}, current := Forget(x.current, p))
    case Broken(r, now) =>
      var p := x.runs[r].pool;
      if p in x.killed then Enter(x, r, now) else End(x, r, PoolBroke(p)).(current := Forget(x.current, p))
    case Finish(r) => End(x, r, OwnOutcome)
  }

  ghost predicate Steps(size: nat, limit: Run -> nat, x: Pools, a: Event, y: Pools) {
    Possible(size, limit, x, a) && y == Step(size, limit, x, a)
  }

  ghost function StepsOf(size: nat, limit: Run -> nat): (Pools, Event, Pools) -> bool {
    (x, a, y) => Steps(size, limit, x, a, y)
  }

  ghost predicate IsPoolRun(size: nat, limit: Run -> nat, states: seq<Pools>, acts: seq<Event>) {
    IsExecution((x: Pools) => IsIdle(x), StepsOf(size, limit), states, acts)
  }

  // ---------------------------------------------------------------- the invariant

  /** A clock runs only inside a pool all of whose children were ready; whoever waits, waits for
      the one pool that is warming up; and nobody is sent to a pool that was reset. */
  ghost predicate PlacesOk(x: Pools) {
    && (forall r :: r in x.runs && x.runs[r].Inside? ==> x.runs[r].pool in x.ready)
    && (forall r :: r in x.runs && x.runs[r].Waiting? ==> x.current == Some(x.runs[r].pool) && IsWarming(x))
    && x.runs.Keys !! x.ended.Keys
  }

  ghost predicate PoolsOk(x: Pools) {
    && x.killed <= x.ready && x.died <= x.ready && x.ready !! x.failed
    && (forall p :: p in x.ready || p in x.failed ==> p < x.next)
    && (x.current.Some? ==> x.current.value < x.next && x.current.value !in x.killed)
  }

  /** What each run that ended was ended by. */
  ghost predicate CausesOk(limit: Run -> nat, x: Pools) {
    forall r :: r in x.ended ==>
      match x.ended[r]
      case OwnOutcome => true
      case OwnTimeout(after) => limit(r) <= after
      case PoolBroke(p) => p in x.died
      case StartFailed(p) => p in x.failed
  }

  ghost predicate PoolInv(size: nat, limit: Run -> nat, x: Pools) {
    |x.runs| <= size && PlacesOk(x) && PoolsOk(x) && CausesOk(limit, x)
  }

  lemma EnterSize(size: nat, x: Pools, r: Run, now: int)
    requires |x.runs| <= size && (r in x.runs || |x.runs| < size)
    ensures |Enter(x, r, now).runs| <= size
  {
    var y := Enter(x, r, now);
    if x.current.Some? && x.current.value in x.failed {
      assert y.runs.Keys == x.runs.Keys - {r};
    } else {
      assert y.runs.Keys == x.runs.Keys + {r};
    }
  }

  lemma EnterPlaces(x: Pools, r: Run, now: int)
    requires PlacesOk(x) && PoolsOk(x) && r !in x.ended
    requires r in x.runs ==> x.runs[r].Inside?
    ensures PlacesOk(Enter(x, r, now)) && PoolsOk(Enter(x, r, now))
  {
    match x.current
    case None => assert forall k :: k in x.runs ==> x.runs[k].Inside?;
    case Some(p) => if p in x.failed {} else if p in x.ready {} else {}
  }

  lemma EnterKeeps(size: nat, limit: Run -> nat, x: Pools, r: Run, now: int)
    requires PoolInv(size, limit, x) && r !in x.ended && (r in x.runs || |x.runs| < size)
    requires r in x.runs ==> x.runs[r].Inside?
    ensures PoolInv(size, limit, Enter(x, r, now))
  {
    EnterSize(size, x, r, now);
    EnterPlaces(x, r, now);
    match x.current
    case None =>
    case Some(p) => if p in x.failed {} else {}
  }

  lemma ReadyKeeps(size: nat, limit: Run -> nat, x: Pools, a: Event)
    requires PoolInv(size, limit, x) && a.PoolReady? && Possible(size, limit, x, a)
    ensures PoolInv(size, limit, Step(size, limit, x, a))
  {
    assert Step(size, limit, x, a).runs.Keys == x.runs.Keys;
  }

  /** The runs that waited for the pool end; the others are inside older pools. */
  lemma FailsPlaces(limit: Run -> nat, x: Pools, p: Pool, y: Pools)
    requires PlacesOk(x) && PoolsOk(x) && CausesOk(limit, x) && IsWarming(x) && p == x.current.value
    requires y.runs == x.runs - Waiters(x, p) && y.failed == x.failed + {p}
    requires y.ended == x.ended + map r | r in Waiters(x, p) :: StartFailed(p)
    requires y.current == x.current && y.next == x.next && y.ready == x.ready && y.killed == x.killed && y.died == x.died
    ensures PlacesOk(y) && PoolsOk(y) && CausesOk(limit, y)
  {
    assert forall r :: r in y.runs ==> r in x.runs && y.runs[r] == x.runs[r] && r !in Waiters(x, p) && y.runs[r].Inside?;
  }

  lemma FailsKeeps(size: nat, limit: Run -> nat, x: Pools, a: Event)
    requires PoolInv(size, limit, x) && a.PoolFails? && Possible(size, limit, x, a)
    ensures PoolInv(size, limit, Step(size, limit, x, a))
  {
    var p, y := x.current.value, Step(size, limit, x, a);
    FailsPlaces(limit, x, p, y);
    FewerRuns(x.runs, Waiters(x, p));
  }

  lemma FewerRuns(runs: map<Run, Place>, gone: set<Run>)
    ensures |runs - gone| <= |runs|
  {
    assert (runs - gone).Keys == runs.Keys - gone;
  }

  lemma EndKeeps(size: nat, limit: Run -> nat, x: Pools, a: Event)
    requires PoolInv(size, limit, x) && (a.TimeOut? || a.Broken? || a.Finish?) && Possible(size, limit, x, a)
    requires a.Broken? ==> x.runs[a.r].pool !in x.killed
    ensures PoolInv(size, limit, Step(size, limit, x, a))
  {
    var y := Step(size, limit, x, a);
    assert |y.runs| == |x.runs| - 1;
    if x.current == Some(x.runs[a.r].pool) {
      assert !IsWarming(x);
    }
  }

  lemma StepKeeps(size: nat, limit: Run -> nat, x: Pools, a: Event)
    requires PoolInv(size, limit, x) && Possible(size, limit, x, a)
    ensures PoolInv(size, limit, Step(size, limit, x, a))
  {
    match a
    case Acquire(r, now) => EnterKeeps(size, limit, x, r, now);
    case PoolReady(_) => ReadyKeeps(size, limit, x, a);
    case PoolFails => FailsKeeps(size, limit, x, a);
    case PoolDies(_) =>
    case Broken(r, now) => if x.runs[r].pool in x.killed { EnterKeeps(size, limit, x, r, now); } else { EndKeeps(size, limit, x, a); }
    case _ => EndKeeps(size, limit, x, a);
  }

  // ---------------------------------------------------------------- over whole runs

  ghost function PoolInvOf(size: nat, limit: Run -> nat): Pools -> bool {
    x => PoolInv(size, limit, x)
  }

  lemma PoolAlways(size: nat, limit: Run -> nat, states: seq<Pools>, acts: seq<Event>, i: nat)
    requires IsPoolRun(size, limit, states, acts) && i < |states|
    ensures PoolInv(size, limit, states[i])
  {
    forall x, a, y | PoolInvOf(size, limit)(x) && StepsOf(size, limit)(x, a, y) ensures PoolInvOf(size, limit)(y) {
      StepKeeps(size, limit, x, a);
    }
    Always((x: Pools) => IsIdle(x), StepsOf(size, limit), PoolInvOf(size, limit), states, acts, i);
    assert PoolInvOf(size, limit)(states[i]);
  }

  ghost function Left(p: Pool): Pools -> bool {
    (x: Pools) => x.current != Some(p) && p < x.next
  }

  lemma LeftStep(size: nat, limit: Run -> nat, x: Pools, a: Event, y: Pools, p: Pool)
    requires Left(p)(x) && Steps(size, limit, x, a, y)
    ensures Left(p)(y)
  {
    match a
    case Acquire(_, _) => match x.current { case None => case Some(_) => }
    case Broken(r, _) => if x.runs[r].pool in x.killed { match x.current { case None => case Some(_) => } } else {}
    case _ =>
  }

  lemma LeftWhenDone(size: nat, limit: Run -> nat, x: Pools, a: Event, y: Pools)
    requires PoolInv(size, limit, x) && Steps(size, limit, x, a, y) && (a.TimeOut? || a.Broken?)
    ensures Left(x.runs[a.r].pool)(y)
  {
    if a.Broken? && x.runs[a.r].pool in x.killed {
      match x.current { case None => case Some(_) => }
    }
  }

  /** A pool that was reset for a run's time-out, or that a run found broken, takes no new run ever again. */
  lemma LeftForGood(size: nat, limit: Run -> nat, states: seq<Pools>, acts: seq<Event>, i: nat, k: nat)
    requires IsPoolRun(size, limit, states, acts) && i < k < |states| && (acts[i].TimeOut? || acts[i].Broken?)
    ensures acts[i].r in states[i].runs && states[k].current != Some(states[i].runs[acts[i].r].pool)
  {
    PoolAlways(size, limit, states, acts, i);
    assert StepsOf(size, limit)(states[i], acts[i], states[i + 1]);
    LeftWhenDone(size, limit, states[i], acts[i], states[i + 1]);
    var p := states[i].runs[acts[i].r].pool;
    forall x, a, y | Left(p)(x) && StepsOf(size, limit)(x, a, y) ensures Left(p)(y) {
      LeftStep(size, limit, x, a, y, p);
    }
    Keeps(StepsOf(size, limit), Left(p), states, acts, i + 1, k);
    assert Left(p)(states[k]);
  }

  /** At most `size` runs are inside the pool or waiting for it; a run that is timed sits in a pool
      that was ready when its clock started; and a run that paid for its pool was in one that
      broke by itself. */
  lemma NobodyPaysForAReset(size: nat, limit: Run -> nat, states: seq<Pools>, acts: seq<Event>, i: nat, r: Run)
    requires IsPoolRun(size, limit, states, acts) && i < |states|
    ensures |states[i].runs| <= size
    ensures IsInside(states[i], r) ==> states[i].runs[r].pool in states[i].ready
    ensures r in states[i].ended && states[i].ended[r].PoolBroke? ==> states[i].ended[r].pool in states[i].died
  {
    PoolAlways(size, limit, states, acts, i);
  }

  /** The run is in the pool's books: under way, or ended for a cause that stays. */
  ghost function Tracked(r: Run): Pools -> bool {
    (x: Pools) => r in x.runs || r in x.ended
  }

  lemma TrackedStep(size: nat, limit: Run -> nat, x: Pools, a: Event, y: Pools, r: Run)
    requires PoolInv(size, limit, x) && Steps(size, limit, x, a, y) && Tracked(r)(x)
    ensures Tracked(r)(y) && (r in x.ended ==> r in y.ended && y.ended[r] == x.ended[r])
  {
    match a
    case Acquire(_, _) => match x.current { case None => case Some(_) => }
    case Broken(k, _) => if x.runs[k].pool in x.killed { match x.current { case None => case Some(_) => } } else {}
    case PoolFails => assert r in x.ended ==> r !in x.runs;
    case _ =>
  }

  lemma TrackedInductive(size: nat, limit: Run -> nat, r: Run)
    ensures forall x, a, y :: PoolInvOf(size, limit)(x) && Tracked(r)(x) && StepsOf(size, limit)(x, a, y) ==> Tracked(r)(y)
  {
    forall x, a, y | PoolInvOf(size, limit)(x) && Tracked(r)(x) && StepsOf(size, limit)(x, a, y) ensures Tracked(r)(y) {
      TrackedStep(size, limit, x, a, y, r);
    }
  }

  lemma TrackedAtFirst(size: nat, limit: Run -> nat, states: seq<Pools>, acts: seq<Event>, i: nat, now: int, r: Run)
    requires IsPoolRun(size, limit, states, acts) && i < |acts| && acts[i] == Acquire(r, now)
    ensures Tracked(r)(states[i + 1])
  {
    assert StepsOf(size, limit)(states[i], acts[i], states[i + 1]);
    match states[i].current { case None => case Some(_) => }
  }

  /** No run is lost between pools: from its start it is under way until it has ended, for one cause. */
  lemma NoRunIsLost(size: nat, limit: Run -> nat, states: seq<Pools>, acts: seq<Event>, i: nat, k: nat, now: int, r: Run)
    requires IsPoolRun(size, limit, states, acts) && i < k < |states| && acts[i] == Acquire(r, now)
    ensures r in states[k].runs <==> r !in states[k].ended
  {
    TrackedAtFirst(size, limit, states, acts, i, now, r);
    forall m | i + 1 <= m < k ensures PoolInvOf(size, limit)(states[m]) {
      PoolAlways(size, limit, states, acts, m);
    }
    TrackedInductive(size, limit, r);
    KeepsGiven(StepsOf(size, limit), PoolInvOf(size, limit), Tracked(r), states, acts, i + 1, k);
    assert Tracked(r)(states[k]);
    PoolAlways(size, limit, states, acts, k);
  }

  /** The events that can start a run's clock, and when they happen. */
  predicate Starts(a: Event, r: Run, now: int) {
    a == Acquire(r, now) || a == PoolReady(now) || a == Broken(r, now)
  }

  lemma ClockStep(size: nat, limit: Run -> nat, x: Pools, a: Event, y: Pools, r: Run)
    requires Steps(size, limit, x, a, y) && IsInside(y, r)
    ensures Starts(a, r, y.runs[r].since) || (r in x.runs && x.runs[r] == y.runs[r])
  {
    match a
    case Acquire(_, _) => match x.current { case None => case Some(_) => }
    case Broken(k, _) => if x.runs[k].pool in x.killed { match x.current { case None => case Some(_) => } } else {}
    case _ =>
  }

  ghost predicate SameFrom(states: seq<Pools>, i: nat, k: nat, r: Run)
    requires i <= k < |states| && r in states[k].runs
  {
    forall m {:trigger states[m]} :: i <= m <= k ==> r in states[m].runs && states[m].runs[r] == states[k].runs[r]
  }

  /** Only time inside a ready pool is on a run's clock: it was started at some event, with that event's time,
      and the run has been in the same pool ever since. */
  lemma {:induction false} ClockStartsInside(size: nat, limit: Run -> nat, states: seq<Pools>, acts: seq<Event>, k: nat, r: Run) returns (i: nat)
    requires IsPoolRun(size, limit, states, acts) && k < |states| && IsInside(states[k], r)
    ensures i < k && Starts(acts[i], r, states[k].runs[r].since) && SameFrom(states, i + 1, k, r)
    decreases k
  {
    assert k > 0;
    assert StepsOf(size, limit)(states[k - 1], acts[k - 1], states[k]);
    ClockStep(size, limit, states[k - 1], acts[k - 1], states[k], r);
    if Starts(acts[k - 1], r, states[k].runs[r].since) {
      i := k - 1;
    } else {
      i := ClockStartsInside(size, limit, states, acts, k - 1, r);
    }
  }

  /** What can happen to a run whose pool was reset: nothing yet; it goes on, out of that pool and
      on a fresh clock; it had finished, or its own time was up, before it noticed; or the next
      pool has already failed to start. */
  predicate GoesOn(limit: Run -> nat, x: Pools, a: Event, y: Pools, r: Run)
    requires IsInside(x, r)
  {
    if a.Broken? && a.r == r then
      if x.current.Some? && x.current.value in x.failed then y.ended == x.ended[r := StartFailed(x.current.value)]
      else r in y.runs && y.runs[r].pool !in y.killed && (y.runs[r].Inside? ==> y.runs[r].since == a.now)
    else if a.TimeOut? && a.r == r then limit(r) <= a.now - x.runs[r].since
    else if a == Finish(r) then y.ended == x.ended[r := OwnOutcome]
    else r in y.runs && y.runs[r] == x.runs[r]
  }

  lemma BystanderStep(size: nat, limit: Run -> nat, x: Pools, a: Event, y: Pools, r: Run)
    requires PoolInv(size, limit, x) && Steps(size, limit, x, a, y) && IsInside(x, r) && x.runs[r].pool in x.killed
    ensures GoesOn(limit, x, a, y, r)
  {
    match a
    case Acquire(_, _) => match x.current { case None => case Some(_) => }
    case Broken(k, _) => if x.runs[k].pool in x.killed { match x.current { case None => case Some(p) => } } else {}
    case _ =>
  }

  /** A reset costs a bystander no attempt, unless the next pool fails to start. */
  lemma BystandersGoOn(size: nat, limit: Run -> nat, states: seq<Pools>, acts: seq<Event>, i: nat, r: Run)
    requires IsPoolRun(size, limit, states, acts) && i < |acts|
    requires IsInside(states[i], r) && states[i].runs[r].pool in states[i].killed
    ensures GoesOn(limit, states[i], acts[i], states[i + 1], r)
  {
    PoolAlways(size, limit, states, acts, i);
    assert StepsOf(size, limit)(states[i], acts[i], states[i + 1]);
    BystanderStep(size, limit, states[i], acts[i], states[i + 1], r);
  }

  // ---------------------------------------------------------------- a pool that fails to start

  ghost function StuckWith(p: Pool): Pools -> bool {
    (x: Pools) => x.current == Some(p) && p in x.failed
  }

  lemma StuckInductive(size: nat, limit: Run -> nat, p: Pool)
    ensures forall x, a, y :: PoolInvOf(size, limit)(x) && StuckWith(p)(x) && StepsOf(size, limit)(x, a, y) ==> StuckWith(p)(y)
  {
  }

  /** A pool that fails to start is never replaced: the failure is raised before the code that
      would forget the pool. From then on every process run fails as soon as it begins. */
  lemma FailedStartIsForever(size: nat, limit: Run -> nat, states: seq<Pools>, acts: seq<Event>, i: nat, k: nat)
    requires IsPoolRun(size, limit, states, acts) && i <= k < |acts|
    requires states[i].current.Some? && states[i].current.value in states[i].failed
    ensures states[k].current == states[i].current
    ensures acts[k].Acquire? ==> acts[k].r in states[k + 1].ended && states[k + 1].ended[acts[k].r].StartFailed?
  {
    var p := states[i].current.value;
    forall m | i <= m < k ensures PoolInvOf(size, limit)(states[m]) {
      PoolAlways(size, limit, states, acts, m);
    }
    StuckInductive(size, limit, p);
    KeepsGiven(StepsOf(size, limit), PoolInvOf(size, limit), StuckWith(p), states, acts, i, k);
    assert StuckWith(p)(states[k]);
    assert StepsOf(size, limit)(states[k], acts[k], states[k + 1]);
  }

  ghost function StuckInv(size: nat, limit: Run -> nat): Pools -> bool {
    (x: Pools) => PoolInv(size, limit, x) && forall p :: p in x.failed ==> x.current == Some(p)
  }

  lemma StuckAlways(size: nat, limit: Run -> nat, states: seq<Pools>, acts: seq<Event>, i: nat)
    requires IsPoolRun(size, limit, states, acts) && i < |states|
    ensures StuckInv(size, limit)(states[i])
  {
    forall x, a, y | StuckInv(size, limit)(x) && StepsOf(size, limit)(x, a, y) ensures StuckInv(size, limit)(y) {
      StepKeeps(size, limit, x, a);
      FailedGrows(size, limit, x, a, y);
    }
    Always((x: Pools) => IsIdle(x), StepsOf(size, limit), StuckInv(size, limit), states, acts, i);
  }

  /** Only a failed start fails a pool, and a failed pool stays the current one. */
  lemma FailedGrows(size: nat, limit: Run -> nat, x: Pools, a: Event, y: Pools)
    requires PoolInv(size, limit, x) && Steps(size, limit, x, a, y) && forall p :: p in x.failed ==> x.current == Some(p)
    ensures y.failed == if a.PoolFails? then x.failed + {x.current.value} else x.failed
    ensures forall p :: p in y.failed ==> y.current == Some(p)
  {
    match a
    case Acquire(_, _) => match x.current { case None => case Some(_) => }
    case Broken(r, _) => if x.runs[r].pool in x.killed { match x.current { case None => case Some(_) => } } else {}
    case _ =>
  }

  predicate SomeStartFailed(acts: seq<Event>, k: nat)
    requires k <= |acts|
  {
    exists i :: 0 <= i < k && acts[i].PoolFails?
  }

  lemma FailedNext(size: nat, limit: Run -> nat, states: seq<Pools>, acts: seq<Event>, k: nat)
    requires IsPoolRun(size, limit, states, acts) && k < |acts|
    ensures states[k + 1].failed != {} <==> states[k].failed != {} || acts[k].PoolFails?
  {
    StuckAlways(size, limit, states, acts, k);
    assert StuckInv(size, limit)(states[k]);
    assert StepsOf(size, limit)(states[k], acts[k], states[k + 1]);
    FailedGrows(size, limit, states[k], acts[k], states[k + 1]);
  }

  ghost predicate FailedSoFar(states: seq<Pools>, acts: seq<Event>, k: nat)
    requires k < |states| && k <= |acts|
  {
    states[k].failed != {} <==> SomeStartFailed(acts, k)
  }

  lemma FailedAtFirst(size: nat, limit: Run -> nat, states: seq<Pools>, acts: seq<Event>)
    requires IsPoolRun(size, limit, states, acts)
    ensures FailedSoFar(states, acts, 0)
  {
  }

  lemma FailedStep(size: nat, limit: Run -> nat, states: seq<Pools>, acts: seq<Event>, k: nat)
    requires IsPoolRun(size, limit, states, acts) && k < |acts| && FailedSoFar(states, acts, k)
    ensures FailedSoFar(states, acts, k + 1)
  {
    FailedNext(size, limit, states, acts, k);
    MaybeOneMore(acts, k);
  }

  lemma {:induction false} FailedIff(size: nat, limit: Run -> nat, states: seq<Pools>, acts: seq<Event>, k: nat)
    requires IsPoolRun(size, limit, states, acts) && k < |states|
    ensures FailedSoFar(states, acts, k)
  {
    var i := 0;
    FailedAtFirst(size, limit, states, acts);
    while i < k
      invariant i <= k && FailedSoFar(states, acts, i)
    {
      FailedStep(size, limit, states, acts, i);
      i := i + 1;
    }
  }

  lemma MaybeOneMore(acts: seq<Event>, k: nat)
    requires k < |acts|
    ensures SomeStartFailed(acts, k + 1) <==> SomeStartFailed(acts, k) || acts[k].PoolFails?
  {
  }

  /** Exactly when a process run fails at once, before it is inside any pool: once any pool of this
      worker has failed to start. */
  lemma AcquireFailsIff(size: nat, limit: Run -> nat, states: seq<Pools>, acts: seq<Event>, k: nat)
    requires IsPoolRun(size, limit, states, acts) && k < |acts| && acts[k].Acquire?
    ensures acts[k].r in states[k + 1].ended <==> SomeStartFailed(acts, k)
    ensures SomeStartFailed(acts, k) ==> states[k + 1].ended[acts[k].r].StartFailed?
  {
    FailedIff(size, limit, states, acts, k);
    StuckAlways(size, limit, states, acts, k);
    assert StuckInv(size, limit)(states[k]);
    assert StepsOf(size, limit)(states[k], acts[k], states[k + 1]);
    if states[k].failed != {} {
      var p :| p in states[k].failed;
    }
  }

  const FRESH := Pools(map[], map[], None, 0, {}, {}, {}, {})
  const WARMING := Pools(map[0 := Waiting(0)], map[], Some(0), 1, {}, {}, {}, {})
  const FAILED := Pools(map[], map[0 := StartFailed(0)], Some(0), 1, {}, {0}, {}, {})
  const FAILED_AGAIN := Pools(map[], map[0 := StartFailed(0), 1 := StartFailed(0)], Some(0), 1, {}, {0}, {}, {})

  lemma FirstPoolFails(size: nat, limit: Run -> nat)
    ensures Steps(size, limit, WARMING, PoolFails, FAILED)
  {
    assert Waiters(WARMING, 0) == {0};
    assert WARMING.runs - {0} == map[];
  }

  lemma NextRunFails(size: nat, limit: Run -> nat)
    requires 1 <= size
    ensures Steps(size, limit, FAILED, Acquire(1, 0), FAILED_AGAIN)
  {
    assert Enter(FAILED, 1, 0) == End(FAILED, 1, StartFailed(0));
    assert FAILED.runs - {1} == map[];
  }

  /** A worker gets there in three steps: the second run pays for the first one's pool. */
  lemma FailedStartIsReached(size: nat, limit: Run -> nat)
    requires 1 <= size
    ensures IsPoolRun(size, limit, [FRESH, WARMING, FAILED, FAILED_AGAIN], [Acquire(0, 0), PoolFails, Acquire(1, 0)])
  {
    var states, acts := [FRESH, WARMING, FAILED, FAILED_AGAIN], [Acquire(0, 0), PoolFails, Acquire(1, 0)];
    FirstPoolFails(size, limit);
    NextRunFails(size, limit);
    assert Steps(size, limit, FRESH, Acquire(0, 0), WARMING);
    forall i {:trigger acts[i]} | 0 <= i < |acts| ensures StepsOf(size, limit)(states[i], acts[i], states[i + 1]) {
      assert i == 0 || i == 1 || i == 2;
    }
  }
}
