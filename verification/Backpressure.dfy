/** Admission: a bounded depth, hysteresis, and idempotent enqueues. */
module Backpressure {
  import opened QueueTypes
  import opened Scripts
  import opened Protocol
  import opened Invariants
  import opened Reachable
  import opened Guarantees
  import opened Behaviors

  ghost predicate Adds(s: Settings, x: System, a: Action) {
    a.DoEnqueue? && Admit(s, x.q, a.job, a.key).Added?
  }

  // ---------------------------------------------------------------- the depth bound

  lemma {:induction false} ScheduleDepth(q: Queue, due: seq<Job>)
    requires GroupOk(q.g) && forall m :: m in due ==> m in q.delayed
    requires forall i, k :: 0 <= i < k < |due| ==> due[i] != due[k]
    ensures Depth(Schedule(q, due)) == Depth(q) && Schedule(q, due).stats.requeued == q.stats.requeued
    decreases |due|
  {
    if due != [] {
      assert q.g.nextId !in q.g.stream;
      AppendKeeps(q.g, due[0]);
      ScheduleDepth(MoveOne(q, due[0]), due[1..]);
    }
  }

  /** A call about an entry replaces at most one stream entry by at most one delayed member. */
  lemma CallDepth(s: Settings, x: System, a: Action, y: System)
    requires GroupOk(x.q.g) && Next(s, x, a, y) && (a.DoCommit? || a.DoRetry? || a.DoDead?)
    ensures Depth(y.q) <= Depth(x.q) && y.q.stats.requeued == x.q.stats.requeued && y.q.door == x.q.door
  {
    match a
    case DoCommit(_, e, _, _) => if x.q.v.HasSucceeded(x.written[e].id) {} else {}
    case DoRetry(w, e, _, timedOut, _) =>
      match RetryOutcome(x.q, w, e, x.written[e].id) {
        case LeaseLost => case TerminalState => case EntryMissing => case Ok => if timedOut {} else {}
      }
    case DoDead(w, e, _, _, _, timedOut, _) =>
      match DeadOutcome(x.q, w, e, x.written[e].id) {
        case LeaseLost => case TerminalState => case EntryMissing => case Ok => if timedOut {} else {}
      }
  }

  lemma EnqueueDepth(s: Settings, x: System, a: Action, y: System)
    requires s.Valid() && GroupOk(x.q.g) && Next(s, x, a, y) && a.DoEnqueue?
    ensures y.q.stats.requeued == x.q.stats.requeued
    ensures if Adds(s, x, a) then Depth(y.q) == Depth(x.q) + 1 <= s.high else Depth(y.q) == Depth(x.q)
  {
    assert x.q.g.nextId !in x.q.g.stream;
    match Admit(s, x.q, a.job, a.key) {
      case Added(_, _) =>
      case Refused(_) => if a.countAs.CountRejected? {} else if a.countAs.CountBlocked? {} else {}
      case DuplicateOf(_) =>
    }
  }

  lemma OtherDepth(s: Settings, x: System, a: Action, y: System)
    requires GroupOk(x.q.g) && Next(s, x, a, y) && !a.DoEnqueue? && !a.DoCommit? && !a.DoRetry? && !a.DoDead?
    ensures Depth(y.q) - y.q.stats.requeued == Depth(x.q) - x.q.stats.requeued
    ensures y.q.stats.requeued >= x.q.stats.requeued
    ensures !a.DoExpireKey? ==> y.q.door == x.q.door
  {
    match a
    case DoFetch(w, count, now) => FetchFrame(Register(x.q.g, w, now), w, count, now);
    case DoHeartbeat(w, e, _) => if Owns(x.q.g, w, e) {} else {}
    case DoEffect(_, e) => if s.KeyOf(x.written[e].jobType, x.written[e].id) in x.q.ledger.marks {} else {}
    case DoSchedule(_, due, _) => ScheduleDepth(x.q, due); ScheduleFrame(x.q, due);
    case DoRequeue(j) =>
      assert x.q.g.nextId !in x.q.g.stream;
      if RequeueOutcomeOf(x.q.v, j).Requeued? {} else {}
    case _ =>
  }

  /** An admitted enqueue leaves the depth at most at the high watermark, and no other step but a
      requeue, which is not admission-checked, raises it. */
  lemma BoundedStep(s: Settings, x: System, a: Action, y: System)
    requires s.Valid() && GroupOk(x.q.g) && Next(s, x, a, y)
    ensures if Adds(s, x, a) then Depth(y.q) == Depth(x.q) + 1 <= s.high && y.q.stats.requeued == x.q.stats.requeued
            else Depth(y.q) - y.q.stats.requeued <= Depth(x.q) - x.q.stats.requeued
    ensures y.q.stats.requeued >= x.q.stats.requeued
  {
    if a.DoEnqueue? {
      EnqueueDepth(s, x, a, y);
    } else if a.DoCommit? || a.DoRetry? || a.DoDead? {
      CallDepth(s, x, a, y);
    } else {
      OtherDepth(s, x, a, y);
    }
  }

  ghost function BoundedOf(s: Settings): System -> bool {
    (x: System) => Depth(x.q) <= s.high + x.q.stats.requeued
  }

  lemma BoundedInductive(s: Settings)
    requires s.Valid()
    ensures forall x, a, y :: InvOf(s)(x) && BoundedOf(s)(x) && NextOf(s)(x, a, y) ==> BoundedOf(s)(y)
  {
    forall x, a, y | InvOf(s)(x) && BoundedOf(s)(x) && NextOf(s)(x, a, y) ensures BoundedOf(s)(y) {
      BoundedStep(s, x, a, y);
    }
  }

  lemma BoundedAtFirst(s: Settings, states: seq<System>, acts: seq<Action>)
    requires IsRun(s, states, acts)
    ensures BoundedOf(s)(states[0])
  {
    assert IsInit(states[0]);
  }

  /** However many producers race, the depth never exceeds the high watermark by more than the
      jobs an operator has requeued. */
  lemma DepthIsBounded(s: Settings, states: seq<System>, acts: seq<Action>, i: nat)
    requires s.Valid() && IsRun(s, states, acts) && i < |states|
    ensures Depth(states[i].q) <= s.high + states[i].q.stats.requeued
  {
    EverywhereInvOf(s, states, acts, 0, i);
    BoundedAtFirst(s, states, acts);
    BoundedInductive(s);
    KeepsGiven(NextOf(s), InvOf(s), BoundedOf(s), states, acts, 0, i);
    assert BoundedOf(s)(states[i]);
  }

  // ---------------------------------------------------------------- hysteresis

  /** A call that is no repeat. */
  predicate IsNew(x: System, a: Action) {
    a.DoEnqueue? && !(a.key.Some? && a.key.value in x.q.door.idem)
  }

  predicate FindsRoom(s: Settings, x: System, a: Action) {
    IsNew(x, a) && Depth(x.q) < s.low
  }

  /** The flag is reset only by an enqueue that finds the depth below low. */
  lemma FullStep(s: Settings, x: System, a: Action, y: System)
    requires GroupOk(x.q.g) && Next(s, x, a, y) && x.q.door.full && !FindsRoom(s, x, a)
    ensures y.q.door.full
  {
    if a.DoEnqueue? {
      if Admit(s, x.q, a.job, a.key).DuplicateOf? {} else {}
    } else if a.DoCommit? || a.DoRetry? || a.DoDead? {
      CallDepth(s, x, a, y);
    } else if !a.DoExpireKey? {
      OtherDepth(s, x, a, y);
    }
  }

  lemma FullAt(s: Settings, states: seq<System>, acts: seq<Action>, k: nat)
    requires IsRun(s, states, acts) && k < |acts| && states[k].q.door.full && !FindsRoom(s, states[k], acts[k])
    ensures states[k + 1].q.door.full
  {
    AlwaysInv(s, states, acts, k);
    StepOf(s, states, acts, k);
    FullStep(s, states[k], acts[k], states[k + 1]);
  }

  /** From step `i` on and before step `k`, no new call finds the depth below the low watermark. */
  ghost predicate NoneFindsRoom(s: Settings, states: seq<System>, acts: seq<Action>, i: nat, k: nat)
    requires k <= |acts| <= |states|
  {
    forall m {:trigger acts[m]} :: i <= m < k ==> !FindsRoom(s, states[m], acts[m])
  }

  predicate IsFull(x: System) {
    x.q.door.full
  }

  lemma FullNext(s: Settings, states: seq<System>, acts: seq<Action>, i: nat, k: nat)
    requires IsRun(s, states, acts) && i < k <= |acts| && NoneFindsRoom(s, states, acts, i, k)
    ensures NoneFindsRoom(s, states, acts, i, k - 1) && (IsFull(states[k - 1]) ==> IsFull(states[k]))
  {
    assert !FindsRoom(s, states[k - 1], acts[k - 1]);
    if IsFull(states[k - 1]) {
      FullAt(s, states, acts, k - 1);
    }
  }

  lemma {:induction false} StaysFull(s: Settings, states: seq<System>, acts: seq<Action>, i: nat, k: nat)
    requires IsRun(s, states, acts) && i <= k <= |acts| && IsFull(states[i]) && NoneFindsRoom(s, states, acts, i, k)
    ensures IsFull(states[k])
    decreases k
  {
    if i < k {
      FullNext(s, states, acts, i, k);
      StaysFull(s, states, acts, i, k - 1);
    }
  }

  lemma FullAfterRefusal(s: Settings, states: seq<System>, acts: seq<Action>, i: nat)
    requires IsRun(s, states, acts) && i < |acts| && acts[i].DoEnqueue?
    requires Admit(s, states[i].q, acts[i].job, acts[i].key).Refused?
    ensures states[i + 1].q.door.full
  {
    StepOf(s, states, acts, i);
  }

  /** Hysteresis: after a refusal every new call is refused, however low the depth was in between, until one
      finds the depth below the low watermark; repeats are still answered with their job. */
  lemma RefusedUntilDrained(s: Settings, states: seq<System>, acts: seq<Action>, i: nat, k: nat)
    requires IsRun(s, states, acts) && i < k < |acts| && acts[k].DoEnqueue? && acts[i].DoEnqueue?
    requires Admit(s, states[i].q, acts[i].job, acts[i].key).Refused?
    requires NoneFindsRoom(s, states, acts, i + 1, k + 1)
    ensures var q, key := states[k].q, acts[k].key;
            Admit(s, q, acts[k].job, key) ==
            if key.Some? && key.value in q.door.idem then DuplicateOf(q.door.idem[key.value]) else Refused(Depth(q))
  {
    FullAfterRefusal(s, states, acts, i);
    StaysFull(s, states, acts, i + 1, k);
    assert !FindsRoom(s, states[k], acts[k]);
  }

  /** And the first one that does is taken, and the flag is gone. */
  lemma ReopensBelowLow(s: Settings, states: seq<System>, acts: seq<Action>, i: nat, k: nat)
    requires IsRun(s, states, acts) && i < k < |acts| && acts[i].DoEnqueue?
    requires Admit(s, states[i].q, acts[i].job, acts[i].key).Refused?
    requires NoneFindsRoom(s, states, acts, i + 1, k) && FindsRoom(s, states[k], acts[k])
    ensures states[k].q.door.full && !states[k + 1].q.door.full
    ensures Admit(s, states[k].q, acts[k].job, acts[k].key) == Added(acts[k].job.id, Depth(states[k].q) + 1)
  {
    FullAfterRefusal(s, states, acts, i);
    StaysFull(s, states, acts, i + 1, k);
    StepOf(s, states, acts, k);
  }

  // ---------------------------------------------------------------- idempotent enqueue

  predicate Remembers(x: System, key: IdemKey, j: JobId) {
    key in x.q.door.idem && x.q.door.idem[key] == j
  }

  /** A key maps to the job it first added until it expires. */
  lemma KeyStep(s: Settings, x: System, a: Action, y: System, key: IdemKey, j: JobId)
    requires GroupOk(x.q.g) && Next(s, x, a, y) && a != DoExpireKey(key) && Remembers(x, key, j)
    ensures Remembers(y, key, j)
  {
    if a.DoEnqueue? {
      if Admit(s, x.q, a.job, a.key).DuplicateOf? {} else if Admit(s, x.q, a.job, a.key).Refused? {} else {}
    } else if a.DoCommit? || a.DoRetry? || a.DoDead? {
      CallDepth(s, x, a, y);
    } else if !a.DoExpireKey? {
      OtherDepth(s, x, a, y);
    }
  }

  ghost predicate NeverExpires(acts: seq<Action>, i: nat, k: nat, key: IdemKey) {
    forall m :: i <= m < k && m < |acts| ==> acts[m] != DoExpireKey(key)
  }

  lemma KeyAt(s: Settings, states: seq<System>, acts: seq<Action>, i: nat, k: nat, key: IdemKey, j: JobId)
    requires IsRun(s, states, acts) && i <= k < |acts| && NeverExpires(acts, i, k + 1, key) && Remembers(states[k], key, j)
    ensures Remembers(states[k + 1], key, j)
  {
    assert acts[k] != DoExpireKey(key);
    AlwaysInv(s, states, acts, k);
    StepOf(s, states, acts, k);
    KeyStep(s, states[k], acts[k], states[k + 1], key, j);
  }

  lemma KeyIsSet(s: Settings, states: seq<System>, acts: seq<Action>, i: nat, key: IdemKey)
    requires IsRun(s, states, acts) && i < |acts|
    requires acts[i].DoEnqueue? && acts[i].key == Some(key) && Adds(s, states[i], acts[i])
    ensures Remembers(states[i + 1], key, acts[i].job.id)
  {
    StepOf(s, states, acts, i);
  }

  lemma NeverExpiresBefore(acts: seq<Action>, i: nat, k: nat, key: IdemKey)
    requires NeverExpires(acts, i, k + 1, key)
    ensures NeverExpires(acts, i, k, key)
  {
  }

  lemma {:induction false} StaysKnown(s: Settings, states: seq<System>, acts: seq<Action>, i: nat, k: nat, key: IdemKey, j: JobId)
    requires IsRun(s, states, acts) && i <= k < |states| && Remembers(states[i], key, j)
    requires NeverExpires(acts, i, k, key)
    ensures Remembers(states[k], key, j)
    decreases k
  {
    if i < k {
      NeverExpiresBefore(acts, i, k - 1, key);
      StaysKnown(s, states, acts, i, k - 1, key, j);
      KeyAt(s, states, acts, i, k - 1, key, j);
    }
  }

  /** A repeat of an enqueue that was accepted, before its key expires, adds nothing and is
      answered with the original job id, even when the queue is full. */
  lemma RepeatGetsTheOriginal(s: Settings, states: seq<System>, acts: seq<Action>, i: nat, k: nat, key: IdemKey, job: Job)
    requires IsRun(s, states, acts) && i < k < |states|
    requires acts[i].DoEnqueue? && acts[i].key == Some(key) && Adds(s, states[i], acts[i])
    requires NeverExpires(acts, i + 1, k, key)
    ensures Admit(s, states[k].q, job, Some(key)) == DuplicateOf(acts[i].job.id)
  {
    KeyIsSet(s, states, acts, i, key);
    StaysKnown(s, states, acts, i + 1, k, key, acts[i].job.id);
  }
}
