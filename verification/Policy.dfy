/** Workers that decide as `Worker._process` and `Worker._fail` do (`src/ftq/worker.py`), and what that
    makes of the DLQ: how many attempts and deliveries its entries record. */
module Policy {
  import opened QueueTypes
  import opened Scripts
  import opened Protocol
  import opened Invariants
  import opened Behaviors
  import Reachability = Reachable
  import opened Guarantees

  /** A failed attempt is retried until it was the last one; an entry delivered too often is not run
      again. Whatever count a worker was told, its entry had reached. */
  predicate Follows(s: Settings, maxAttempts: nat, x: System, a: Action) {
    match a
    case DoRetry(_, e, _, _, _) => e < |x.written| ==> x.written[e].attempt + 1 < maxAttempts
    case DoDead(_, e, reason, _, attempts, _, _) => e < |x.written| ==> DiesRightly(s, maxAttempts, x, e, reason, attempts)
    case _ => true
  }

  predicate DiesRightly(s: Settings, maxAttempts: nat, x: System, e: EntryId, reason: DeadReason, attempts: nat)
    requires e < |x.written|
  {
    match reason
    case MaxAttempts => attempts == x.written[e].attempt + 1 && maxAttempts <= attempts
    case MaxDeliveries => attempts == x.written[e].attempt + 1 && e in x.reach && s.maxDeliveries < x.reach[e]
    case Malformed => attempts == 0
    case UnknownType => attempts == x.written[e].attempt
  }

  predicate HasAttemptLeft(maxAttempts: nat, job: Job) {
    job.attempt < maxAttempts
  }

  predicate DeadRightly(s: Settings, maxAttempts: nat, d: DeadJob) {
    && (d.reason.MaxAttempts? ==> d.attempts == maxAttempts)
    && (d.reason.MaxDeliveries? ==> s.maxDeliveries < d.deliveries)
  }

  ghost predicate AttemptsLeft(maxAttempts: nat, written: seq<Job>, delayed: map<Job, int>) {
    && (forall k :: 0 <= k < |written| ==> HasAttemptLeft(maxAttempts, written[k]))
    && forall m :: m in delayed ==> HasAttemptLeft(maxAttempts, m)
  }

  ghost predicate AllDeadRightly(s: Settings, maxAttempts: nat, dlq: map<EntryId, DeadJob>) {
    forall d :: d in dlq ==> DeadRightly(s, maxAttempts, dlq[d])
  }

  /** The observer's count of a pending entry is the PEL's. */
  ghost predicate ReachIsCount(reach: map<EntryId, nat>, pel: map<EntryId, Lease>) {
    forall e :: e in pel ==> e in reach && reach[e] == pel[e].deliveries
  }

  ghost predicate Right(s: Settings, maxAttempts: nat, x: System) {
    && AttemptsLeft(maxAttempts, x.written, x.q.delayed) && AllDeadRightly(s, maxAttempts, x.q.v.dlq)
    && ReachIsCount(x.reach, x.q.g.pel)
  }

  lemma ReachNextOfCall(s: Settings, x: System, a: Action, y: System)
    requires Next(s, x, a, y) && (a.DoHeartbeat? || a.DoEffect? || a.DoCommit? || a.DoRetry? || a.DoDead?)
    ensures ReachIsCount(y.reach, y.q.g.pel)
  {
  }

  lemma ReachNextOfPass(s: Settings, x: System, a: Action, y: System)
    requires Next(s, x, a, y) && (a.DoFetch? || a.DoSchedule? || a.DoReclaim? || a.DoPrune?)
    ensures ReachIsCount(y.reach, y.q.g.pel)
  {
  }

  lemma ReachNext(s: Settings, x: System, a: Action, y: System)
    requires Next(s, x, a, y)
    ensures ReachIsCount(y.reach, y.q.g.pel)
  {
    match a
    case DoEnqueue(job, key, _) => if Admit(s, x.q, job, key).Added? {} else {}
    case DoRequeue(j) => if RequeueOutcomeOf(x.q.v, j).Requeued? {} else {}
    case DoExpireKey(_) =>
    case DoFetch(_, _, _) => ReachNextOfPass(s, x, a, y);
    case DoSchedule(_, _, _) => ReachNextOfPass(s, x, a, y);
    case DoReclaim(_, _, _, _, _, _) => ReachNextOfPass(s, x, a, y);
    case DoPrune(_, _) => ReachNextOfPass(s, x, a, y);
    case _ => ReachNextOfCall(s, x, a, y);
  }

  lemma {:induction false} ScheduleDelayed(q: Queue, due: seq<Job>)
    ensures Schedule(q, due).delayed.Keys <= q.delayed.Keys
    decreases |due|
  {
    if due != [] {
      ScheduleDelayed(MoveOne(q, due[0]), due[1..]);
    }
  }

  lemma AttemptsNext(s: Settings, maxAttempts: nat, x: System, a: Action, y: System)
    requires 1 <= maxAttempts && Reachability.LogOk(x.q.g, x.written, x.holders) && Next(s, x, a, y)
    requires Follows(s, maxAttempts, x, a) && AttemptsLeft(maxAttempts, x.written, x.q.delayed)
    ensures AttemptsLeft(maxAttempts, y.written, y.q.delayed)
  {
    match a
    case DoEnqueue(job, key, _) => if Admit(s, x.q, job, key).Added? {} else if Admit(s, x.q, job, key).Refused? {} else {}
    case DoRetry(w, e, _, _, _) =>
      match RetryOutcome(x.q, w, e, x.written[e].id) {
        case LeaseLost => case TerminalState => case EntryMissing => case Ok =>
      }
    case DoSchedule(_, due, _) =>
      ScheduleDelayed(x.q, due);
      forall k | 0 <= k < |y.written| ensures HasAttemptLeft(maxAttempts, y.written[k]) {
        assert k >= |x.written| ==> y.written[k] in due;
      }
    case DoRequeue(j) => if RequeueOutcomeOf(x.q.v, j).Requeued? {} else {}
    case _ => CopiesFrame(s, x, a, y);
  }

  /** No other step writes an entry or parks a retry. */
  lemma CopiesFrame(s: Settings, x: System, a: Action, y: System)
    requires Next(s, x, a, y) && !a.DoEnqueue? && !a.DoRetry? && !a.DoSchedule? && !a.DoRequeue?
    ensures y.written == x.written && y.q.delayed == x.q.delayed
  {
    match a
    case DoEffect(_, e) => if s.KeyOf(x.written[e].jobType, x.written[e].id) in x.q.ledger.marks {} else {}
    case DoCommit(_, e, _, _) => if x.q.v.HasSucceeded(x.written[e].id) {} else {}
    case DoDead(w, e, _, _, _, _, _) =>
      match DeadOutcome(x.q, w, e, x.written[e].id) {
        case LeaseLost => case TerminalState => case EntryMissing => case Ok =>
      }
    case DoHeartbeat(w, e, _) => if Owns(x.q.g, w, e) {} else {}
    case _ =>
  }

  lemma DeadNext(s: Settings, maxAttempts: nat, x: System, a: Action, y: System)
    requires Next(s, x, a, y) && Follows(s, maxAttempts, x, a) && AllDeadRightly(s, maxAttempts, x.q.v.dlq)
    requires AttemptsLeft(maxAttempts, x.written, x.q.delayed) && ReachIsCount(x.reach, x.q.g.pel)
    ensures AllDeadRightly(s, maxAttempts, y.q.v.dlq)
  {
    if a.DoDead? {
      BuriedRightly(s, maxAttempts, x, a, y);
    } else {
      NoneBuried(s, x, a, y);
    }
  }

  lemma BuriedRightly(s: Settings, maxAttempts: nat, x: System, a: Action, y: System)
    requires Next(s, x, a, y) && a.DoDead? && Follows(s, maxAttempts, x, a) && AllDeadRightly(s, maxAttempts, x.q.v.dlq)
    requires AttemptsLeft(maxAttempts, x.written, x.q.delayed) && ReachIsCount(x.reach, x.q.g.pel)
    ensures AllDeadRightly(s, maxAttempts, y.q.v.dlq)
  {
    match DeadOutcome(x.q, a.w, a.e, x.written[a.e].id) {
      case LeaseLost => case TerminalState => case EntryMissing =>
      case Ok => assert HasAttemptLeft(maxAttempts, x.written[a.e]) && DiesRightly(s, maxAttempts, x, a.e, a.reason, a.attempts);
    }
  }

  /** No other step adds to the DLQ. */
  lemma NoneBuried(s: Settings, x: System, a: Action, y: System)
    requires Next(s, x, a, y) && !a.DoDead?
    ensures forall d :: d in y.q.v.dlq ==> d in x.q.v.dlq && y.q.v.dlq[d] == x.q.v.dlq[d]
  {
    match a
    case DoCommit(_, e, _, _) => if x.q.v.HasSucceeded(x.written[e].id) {} else {}
    case DoRequeue(j) => if RequeueOutcomeOf(x.q.v, j).Requeued? {} else {}
    case _ => VerdictsFrame(s, x, a, y);
  }

  /** The workers of a stretch follow the policy. */
  ghost predicate AllFollow(s: Settings, maxAttempts: nat, states: seq<System>, acts: seq<Action>) {
    |states| == |acts| + 1 && forall i {:trigger acts[i]} :: 0 <= i < |acts| ==> Follows(s, maxAttempts, states[i], acts[i])
  }

  lemma RightAtFirst(s: Settings, maxAttempts: nat, states: seq<System>, acts: seq<Action>)
    requires IsRun(s, states, acts)
    ensures Right(s, maxAttempts, states[0])
  {
    assert IsInit(states[0]);
  }

  lemma RightNext(s: Settings, maxAttempts: nat, x: System, a: Action, y: System)
    requires 1 <= maxAttempts && Right(s, maxAttempts, x) && Reachability.LogOk(x.q.g, x.written, x.holders)
    requires Next(s, x, a, y) && Follows(s, maxAttempts, x, a)
    ensures Right(s, maxAttempts, y)
  {
    ReachNext(s, x, a, y);
    AttemptsNext(s, maxAttempts, x, a, y);
    DeadNext(s, maxAttempts, x, a, y);
  }

  lemma RightStep(s: Settings, maxAttempts: nat, states: seq<System>, acts: seq<Action>, i: nat)
    requires 1 <= maxAttempts && IsRun(s, states, acts) && i < |acts| && Follows(s, maxAttempts, states[i], acts[i])
    requires Right(s, maxAttempts, states[i])
    ensures Right(s, maxAttempts, states[i + 1])
  {
    Reachability.AlwaysInv(s, states, acts, i);
    StepOf(s, states, acts, i);
    RightNext(s, maxAttempts, states[i], acts[i], states[i + 1]);
  }

  /** In every run whose workers follow the policy, every copy of a job has an attempt left, and each DLQ
      entry says truly that its attempts were used up, to the last, or its deliveries exceeded. */
  lemma {:induction false} DlqTellsTrue(s: Settings, maxAttempts: nat, states: seq<System>, acts: seq<Action>, i: nat)
    requires 1 <= maxAttempts && IsRun(s, states, acts) && AllFollow(s, maxAttempts, states, acts) && i < |states|
    ensures Right(s, maxAttempts, states[i])
    decreases i
  {
    if i == 0 {
      RightAtFirst(s, maxAttempts, states, acts);
    } else {
      DlqTellsTrue(s, maxAttempts, states, acts, i - 1);
      RightStep(s, maxAttempts, states, acts, i - 1);
    }
  }
}
