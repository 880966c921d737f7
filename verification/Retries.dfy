/** Retries in the delayed set: how many wait, how many were moved on, and how many fell together
    with an equal copy that was waiting already. */
module Retries {
  import opened QueueTypes
  import opened Scripts
  import opened Protocol
  import opened Reachable
  import opened Guarantees
  import StepEffects

  /** The member that a retry of `e` adds to the delayed set. */
  function Member(x: System, e: EntryId): Job
    requires e < |x.written|
  {
    (if e in x.q.g.stream then x.q.g.stream[e] else x.written[e]).(attempt := x.written[e].attempt + 1)
  }

  /** A retry that takes effect while an equal copy, same attempt included, waits already. */
  predicate Collapses(x: System, a: Action) {
    && a.DoRetry? && a.e < |x.written|
    && RetryOutcome(x.q, a.w, a.e, x.written[a.e].id) == Ok && Member(x, a.e) in x.q.delayed
  }

  function Collapsed(states: seq<System>, acts: seq<Action>, i: nat): nat
    requires i <= |acts| <= |states|
  {
    if i == 0 then 0 else Collapsed(states, acts, i - 1) + if Collapses(states[i - 1], acts[i - 1]) then 1 else 0
  }

  /** Retries that are neither waiting nor moved on. */
  function Missing(q: Queue): int {
    q.stats.retried - |q.delayed| - q.stats.scheduled
  }

  lemma {:induction false} ScheduleMissing(q: Queue, due: seq<Job>)
    requires forall m :: m in due ==> m in q.delayed
    requires forall i, k :: 0 <= i < k < |due| ==> due[i] != due[k]
    ensures Missing(Schedule(q, due)) == Missing(q)
    decreases |due|
  {
    if due != [] {
      assert |MoveOne(q, due[0]).delayed| == |q.delayed| - 1;
      ScheduleMissing(MoveOne(q, due[0]), due[1..]);
    }
  }

  /** Every other step leaves the three numbers alone. */
  lemma MissingFrame(s: Settings, x: System, a: Action, y: System)
    requires Next(s, x, a, y) && !a.DoRetry? && !a.DoSchedule?
    ensures Missing(y.q) == Missing(x.q)
  {
    match a
    case DoEnqueue(job, key, countAs) =>
      if Admit(s, x.q, job, key).Added? {} else if Admit(s, x.q, job, key).Refused? {
        if countAs.CountRejected? {} else if countAs.CountBlocked? {} else {}
      } else {}
    case DoHeartbeat(w, e, _) => if Owns(x.q.g, w, e) {} else {}
    case DoEffect(_, e) => if s.KeyOf(x.written[e].jobType, x.written[e].id) in x.q.ledger.marks {} else {}
    case DoCommit(_, e, _, _) => if x.q.v.HasSucceeded(x.written[e].id) {} else {}
    case DoDead(w, e, _, _, _, timedOut, _) =>
      match DeadOutcome(x.q, w, e, x.written[e].id) {
        case LeaseLost => case TerminalState => case EntryMissing => case Ok => if timedOut {} else {}
      }
    case DoRequeue(j) => if RequeueOutcomeOf(x.q.v, j).Requeued? {} else {}
    case _ =>
  }

  lemma MissingStep(s: Settings, x: System, a: Action, y: System)
    requires Next(s, x, a, y)
    ensures Missing(y.q) == Missing(x.q) + if Collapses(x, a) then 1 else 0
  {
    if a.DoRetry? {
      match RetryOutcome(x.q, a.w, a.e, x.written[a.e].id) {
        case LeaseLost =>
        case TerminalState =>
        case EntryMissing =>
        case Ok => if a.timedOut {} else {}
      }
    } else if a.DoSchedule? {
      ScheduleMissing(x.q, a.due);
    } else {
      MissingFrame(s, x, a, y);
    }
  }

  /** Conservation of retries: every one waits, was moved back to the stream, or fell together with
      an equal one. */
  lemma {:induction false} RetriesConserve(s: Settings, states: seq<System>, acts: seq<Action>, i: nat)
    requires IsRun(s, states, acts) && i < |states|
    ensures var q := states[i].q; q.stats.retried == |q.delayed| + q.stats.scheduled + Collapsed(states, acts, i)
    decreases i
  {
    if i == 0 {
      assert IsInit(states[0]);
    } else {
      RetriesConserve(s, states, acts, i - 1);
      StepOf(s, states, acts, i - 1);
      MissingStep(s, states[i - 1], acts[i - 1], states[i]);
    }
  }

  lemma {:induction false} CollapsedIsZeroIff(states: seq<System>, acts: seq<Action>, i: nat)
    requires i <= |acts| <= |states|
    ensures Collapsed(states, acts, i) == 0 <==> forall k :: 0 <= k < i ==> !Collapses(states[k], acts[k])
    decreases i
  {
    if i > 0 {
      CollapsedIsZeroIff(states, acts, i - 1);
    }
  }

  /** None is missing exactly when no retry ever found an equal copy waiting. */
  lemma NoneMissingIff(s: Settings, states: seq<System>, acts: seq<Action>, i: nat)
    requires IsRun(s, states, acts) && i < |states|
    ensures var q := states[i].q;
            q.stats.retried == |q.delayed| + q.stats.scheduled <==> forall k :: 0 <= k < i ==> !Collapses(states[k], acts[k])
  {
    RetriesConserve(s, states, acts, i);
    CollapsedIsZeroIff(states, acts, i);
  }

  // ---------------------------------------------------------------- a retry waits its backoff

  /** Who a retry of `e` parks. */
  function Parked(x: System, e: EntryId): Job
    requires e < |x.written|
  {
    x.written[e].(attempt := x.written[e].attempt + 1)
  }

  /** A retry that takes effect and parks the member `m`. */
  predicate Parks(x: System, a: Action, m: Job) {
    a.DoRetry? && a.e < |x.written| && StepEffects.MayAct(x.q, a.w, a.e, x.written[a.e].id) && Parked(x, a.e) == m
  }

  predicate IsDueAt(x: System, m: Job, due: int) {
    m in x.q.delayed ==> x.q.delayed[m] == due
  }

  /** Only retries and the scheduler change the delayed set. */
  lemma DelayedFrame(s: Settings, x: System, a: Action, y: System)
    requires Next(s, x, a, y) && !a.DoRetry? && !a.DoSchedule?
    ensures y.q.delayed == x.q.delayed
  {
    match a
    case DoEnqueue(job, key, _) => if Admit(s, x.q, job, key).Added? {} else if Admit(s, x.q, job, key).Refused? {} else {}
    case DoHeartbeat(w, e, _) => if Owns(x.q.g, w, e) {} else {}
    case DoEffect(_, e) => if s.KeyOf(x.written[e].jobType, x.written[e].id) in x.q.ledger.marks {} else {}
    case DoCommit(_, e, _, _) => if x.q.v.HasSucceeded(x.written[e].id) {} else {}
    case DoDead(w, e, _, _, _, _, _) =>
      match DeadOutcome(x.q, w, e, x.written[e].id) {
        case LeaseLost => case TerminalState => case EntryMissing => case Ok =>
      }
    case DoRequeue(j) => if RequeueOutcomeOf(x.q.v, j).Requeued? {} else {}
    case _ =>
  }

  lemma DueStep(s: Settings, x: System, a: Action, y: System, m: Job, due: int)
    requires StepEffects.EntriesOk(x) && Next(s, x, a, y) && IsDueAt(x, m, due) && !Parks(x, a, m)
    ensures IsDueAt(y, m, due)
  {
    if a.DoRetry? {
      StepEffects.RetryParks(s, x, a, y);
    } else if a.DoSchedule? {
      StepEffects.ScheduleMovesDue(s, x, a, y);
    } else {
      DelayedFrame(s, x, a, y);
    }
  }

  lemma DueAt(s: Settings, states: seq<System>, acts: seq<Action>, k: nat, m: Job, due: int)
    requires IsRun(s, states, acts) && k < |acts| && IsDueAt(states[k], m, due) && !Parks(states[k], acts[k], m)
    ensures IsDueAt(states[k + 1], m, due)
  {
    AlwaysInv(s, states, acts, k);
    StepOf(s, states, acts, k);
    DueStep(s, states[k], acts[k], states[k + 1], m, due);
  }

  /** From step `i` on and before step `k`, no other retry parks an equal member. */
  ghost predicate NoneParks(states: seq<System>, acts: seq<Action>, i: nat, k: nat, m: Job)
    requires k <= |acts| <= |states|
  {
    forall l {:trigger acts[l]} :: i <= l < k ==> !Parks(states[l], acts[l], m)
  }

  lemma {:induction false} StaysDueAt(s: Settings, states: seq<System>, acts: seq<Action>, i: nat, k: nat, m: Job, due: int)
    requires IsRun(s, states, acts) && i <= k <= |acts| && IsDueAt(states[i], m, due) && NoneParks(states, acts, i, k, m)
    ensures IsDueAt(states[k], m, due)
    decreases k
  {
    if i < k {
      StaysDueAt(s, states, acts, i, k - 1, m, due);
      DueAt(s, states, acts, k - 1, m, due);
    }
  }

  lemma IsParked(s: Settings, states: seq<System>, acts: seq<Action>, i: nat, m: Job)
    requires IsRun(s, states, acts) && i < |acts| && Parks(states[i], acts[i], m)
    ensures m in states[i + 1].q.delayed && IsDueAt(states[i + 1], m, acts[i].now + acts[i].delay)
  {
    AlwaysInv(s, states, acts, i);
    StepOf(s, states, acts, i);
    StepEffects.RetryParks(s, states[i], acts[i], states[i + 1]);
  }

  lemma MovedWhenDue(s: Settings, states: seq<System>, acts: seq<Action>, k: nat, m: Job, due: int)
    requires IsRun(s, states, acts) && k < |acts| && acts[k].DoSchedule? && m in acts[k].due && IsDueAt(states[k], m, due)
    ensures due <= acts[k].now
  {
    StepOf(s, states, acts, k);
  }

  /** Every retry waits its backoff: no scheduler moves the member that it parked before its time has passed,
      unless an equal retry parked it again in between. */
  lemma WaitsItsBackoff(s: Settings, states: seq<System>, acts: seq<Action>, i: nat, k: nat, m: Job)
    requires IsRun(s, states, acts) && i < k < |acts| && Parks(states[i], acts[i], m)
    requires acts[k].DoSchedule? && m in acts[k].due && NoneParks(states, acts, i + 1, k, m)
    ensures acts[i].now + acts[i].delay <= acts[k].now
  {
    IsParked(s, states, acts, i, m);
    StaysDueAt(s, states, acts, i + 1, k, m, acts[i].now + acts[i].delay);
    MovedWhenDue(s, states, acts, k, m, acts[i].now + acts[i].delay);
  }
}
