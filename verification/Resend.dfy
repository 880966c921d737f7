/** Re-sends: a call repeated after a lost reply, at any later point of the run. */
module Resend {
  import opened QueueTypes
  import opened Scripts
  import opened Protocol
  import opened Invariants
  import opened Reachable
  import opened Guarantees
  import opened Leases
  import opened Behaviors

  /** The entry was delivered and has left the PEL. */
  predicate Gone(q: Queue, e: EntryId) {
    e < q.g.delivered && e !in q.g.pel
  }

  /** The step moved counters and nothing else. */
  predicate OnlyCounters(x: System, y: System) {
    && y.q == x.q.(stats := y.q.stats) && y.written == x.written && y.holders == x.holders
    && y.accepted == x.accepted && y.enqueued == x.enqueued
  }

  /** Entry ids are never reused, so an entry that left the PEL stays out. */
  lemma GoneStep(s: Settings, x: System, a: Action, y: System, e: EntryId)
    requires GroupOk(x.q.g) && Next(s, x, a, y) && Gone(x.q, e)
    ensures Gone(y.q, e)
  {
    if a.DoFetch? {
      FetchPel(Register(x.q.g, a.w, a.now), a.w, a.count, a.now, e);
    } else if a.DoHeartbeat? {
      if Owns(x.q.g, a.w, a.e) {} else {}
    } else if a.DoReclaim? {
    } else {
      PelFrame(s, x, a, y);
    }
  }

  ghost function GoneOf(s: Settings, e: EntryId): System -> bool {
    (x: System) => SystemInv(s, x) && Gone(x.q, e)
  }

  lemma GoneInductive(s: Settings, e: EntryId)
    ensures forall x, a, y :: GoneOf(s, e)(x) && NextOf(s)(x, a, y) ==> GoneOf(s, e)(y)
  {
    forall x, a, y | GoneOf(s, e)(x) && NextOf(s)(x, a, y) ensures GoneOf(s, e)(y) {
      StepKeeps(s, x, a, y);
      GoneStep(s, x, a, y, e);
    }
  }

  /** Gone at one state of a run, gone at every later one. */
  lemma GoneForever(s: Settings, states: seq<System>, acts: seq<Action>, i: nat, k: nat, e: EntryId)
    requires IsRun(s, states, acts) && i <= k < |states| && Gone(states[i].q, e)
    ensures GoneOf(s, e)(states[k])
  {
    AlwaysInvOf(s, states, acts, i);
    assert InvOf(s)(states[i]);
    GoneInductive(s, e);
    Keeps(NextOf(s), GoneOf(s, e), states, acts, i, k);
  }

  /** The call took effect: it was a commit, or its caller owned the entry. */
  predicate Executed(x: System, a: Action) {
    || a.DoCommit?
    || (a.DoRetry? && a.e < |x.written| && RetryOutcome(x.q, a.w, a.e, x.written[a.e].id) != LeaseLost)
    || (a.DoDead? && a.e < |x.written| && DeadOutcome(x.q, a.w, a.e, x.written[a.e].id) != LeaseLost)
  }

  /** An executed call takes its entry out of the stream and the PEL. */
  lemma ExecutedIsGone(s: Settings, x: System, a: Action, y: System)
    requires SystemInv(s, x) && Next(s, x, a, y) && Executed(x, a)
    ensures Gone(y.q, a.e)
  {
    match a
    case DoCommit(_, e, _, _) => if x.q.v.HasSucceeded(x.written[e].id) {} else {}
    case DoRetry(w, e, _, _, _) =>
      match RetryOutcome(x.q, w, e, x.written[e].id) {
        case LeaseLost => case TerminalState => case EntryMissing => case Ok =>
      }
    case DoDead(w, e, _, _, _, _, _) =>
      match DeadOutcome(x.q, w, e, x.written[e].id) {
        case LeaseLost => case TerminalState => case EntryMissing => case Ok =>
      }
  }

  /** Repeating a retry or a DLQ move on an entry that is gone is refused as LEASE_LOST. */
  lemma GoneCallIsRefused(s: Settings, x: System, a: Action, y: System)
    requires Next(s, x, a, y) && (a.DoRetry? || a.DoDead?) && Gone(x.q, a.e)
    ensures OnlyCounters(x, y) && y.q.stats == x.q.stats.(leaseLost := x.q.stats.leaseLost + 1)
  {
    if a.DoRetry? {
      assert RetryOutcome(x.q, a.w, a.e, x.written[a.e].id) == LeaseLost;
    } else {
      assert DeadOutcome(x.q, a.w, a.e, x.written[a.e].id) == LeaseLost;
    }
  }

  lemma SuppressGone(q: Queue, e: EntryId)
    requires GroupOk(q.g) && Gone(q, e)
    ensures Suppress(q, e) == q.(stats := q.stats.(duplicatesSuppressed := q.stats.duplicatesSuppressed + 1))
  {
    assert e !in q.g.stream;
    assert q.g.stream - {e} == q.g.stream;
    assert q.g.pel - {e} == q.g.pel;
  }

  /** Repeating a commit of a SUCCEEDED job whose entry is gone is a suppressed duplicate. */
  lemma GoneCommitIsSuppressed(s: Settings, x: System, a: Action, y: System)
    requires GroupOk(x.q.g) && Next(s, x, a, y) && a.DoCommit? && Gone(x.q, a.e)
    requires x.q.v.HasSucceeded(x.written[a.e].id)
    ensures OnlyCounters(x, y)
    ensures y.q.stats == x.q.stats.(duplicatesSuppressed := x.q.stats.duplicatesSuppressed + 1)
  {
    SuppressGone(x.q, a.e);
  }

  ghost function WrittenAs(e: EntryId, job: Job): System -> bool {
    (x: System) => e < |x.written| && x.written[e] == job
  }

  lemma WrittenInductive(s: Settings, e: EntryId, job: Job)
    ensures forall x, a, y :: WrittenAs(e, job)(x) && NextOf(s)(x, a, y) ==> WrittenAs(e, job)(y)
  {
  }

  /** The fields of an entry are fixed when it is added. */
  lemma WrittenForever(s: Settings, states: seq<System>, acts: seq<Action>, i: nat, k: nat, e: EntryId)
    requires IsStretch(s, states, acts) && i <= k < |states| && e < |states[i].written|
    ensures e < |states[k].written| && states[k].written[e] == states[i].written[e]
  {
    WrittenInductive(s, e, states[i].written[e]);
    Keeps(NextOf(s), WrittenAs(e, states[i].written[e]), states, acts, i, k);
    assert WrittenAs(e, states[i].written[e])(states[k]);
  }

  lemma ExecutedLeaves(s: Settings, states: seq<System>, acts: seq<Action>, i: nat)
    requires IsRun(s, states, acts) && i < |acts| && Executed(states[i], acts[i])
    ensures Gone(states[i + 1].q, acts[i].e)
  {
    AlwaysInv(s, states, acts, i);
    StepOf(s, states, acts, i);
    ExecutedIsGone(s, states[i], acts[i], states[i + 1]);
  }

  /** The entry of an executed call stays out of the PEL for the rest of the run. */
  lemma ExecutedStaysGone(s: Settings, states: seq<System>, acts: seq<Action>, i: nat, k: nat)
    requires IsRun(s, states, acts) && i < k < |states| && Executed(states[i], acts[i])
    ensures GroupOk(states[k].q.g) && Gone(states[k].q, acts[i].e)
  {
    ExecutedLeaves(s, states, acts, i);
    GoneForever(s, states, acts, i + 1, k, acts[i].e);
    assert GoneOf(s, acts[i].e)(states[k]);
  }

  /** A retry or DLQ move that took effect can be re-sent at any later point of the run, and any time:
      it is refused, and only the lease_lost counter moves. */
  lemma ResentMoveIsHarmless(s: Settings, states: seq<System>, acts: seq<Action>, i: nat, k: nat, again: Action, y: System)
    requires IsRun(s, states, acts) && i < k < |states| && SameCall(again, acts[i]) && Next(s, states[k], again, y)
    requires (acts[i].DoRetry? || acts[i].DoDead?) && Executed(states[i], acts[i])
    ensures OnlyCounters(states[k], y)
    ensures y.q.stats == states[k].q.stats.(leaseLost := states[k].q.stats.leaseLost + 1)
  {
    ExecutedStaysGone(s, states, acts, i, k);
    GoneCallIsRefused(s, states[k], again, y);
  }

  lemma CommittedStaysSucceeded(s: Settings, states: seq<System>, acts: seq<Action>, i: nat, k: nat)
    requires IsRun(s, states, acts) && i < k < |states| && acts[i].DoCommit?
    ensures acts[i].e < |states[i].written| && states[k].q.v.HasSucceeded(states[i].written[acts[i].e].id)
  {
    StepOf(s, states, acts, i);
    var j := states[i].written[acts[i].e].id;
    JobStep(s, states[i], acts[i], states[i + 1], j);
    FirstSuccessWins(s, states, acts, i + 1, k, j);
  }

  /** Any commit can be re-sent at any later point of the run, and any time: it is a suppressed duplicate. */
  lemma ResentCommitIsHarmless(s: Settings, states: seq<System>, acts: seq<Action>, i: nat, k: nat, again: Action, y: System)
    requires IsRun(s, states, acts) && i < k < |states| && SameCall(again, acts[i]) && Next(s, states[k], again, y)
    requires acts[i].DoCommit?
    ensures OnlyCounters(states[k], y)
    ensures y.q.stats == states[k].q.stats.(duplicatesSuppressed := states[k].q.stats.duplicatesSuppressed + 1)
  {
    ExecutedStaysGone(s, states, acts, i, k);
    CommittedStaysSucceeded(s, states, acts, i, k);
    WrittenForever(s, states, acts, i, k, acts[i].e);
    GoneCommitIsSuppressed(s, states[k], again, y);
  }

  /** A requeue, first sent or re-sent, does something exactly when the job is DEAD. */
  lemma RequeueActsIffDead(s: Settings, x: System, a: Action, y: System)
    requires SystemInv(s, x) && Next(s, x, a, y) && a.DoRequeue?
    ensures x.q.v.IsDead(a.j) <==> y.q != x.q
    ensures y.q != x.q ==> !y.q.v.IsDead(a.j)
  {
    if x.q.v.IsDead(a.j) {
      assert y.q.g.nextId == x.q.g.nextId + 1;
    }
  }

  /** Only the ledger step touches the ledger. */
  lemma LedgerFrame(s: Settings, x: System, a: Action, y: System)
    requires Next(s, x, a, y)
    ensures x.q.ledger.marks <= y.q.ledger.marks
    ensures a.DoEffect? ==> a.e < |x.written| && s.HasEffect(x.written[a.e].jobType) &&
                            s.KeyOf(x.written[a.e].jobType, x.written[a.e].id) in y.q.ledger.marks
  {
    match a
    case DoEnqueue(job, key, _) => if Admit(s, x.q, job, key).Added? {} else if Admit(s, x.q, job, key).Refused? {} else {}
    case DoHeartbeat(w, e, _) => if Owns(x.q.g, w, e) {} else {}
    case DoEffect(_, e) => if s.KeyOf(x.written[e].jobType, x.written[e].id) in x.q.ledger.marks {} else {}
    case DoCommit(_, e, _, _) => if x.q.v.HasSucceeded(x.written[e].id) {} else {}
    case DoRetry(w, e, _, _, _) =>
      match RetryOutcome(x.q, w, e, x.written[e].id) {
        case LeaseLost => case TerminalState => case EntryMissing => case Ok =>
      }
    case DoDead(w, e, _, _, _, _, _) =>
      match DeadOutcome(x.q, w, e, x.written[e].id) {
        case LeaseLost => case TerminalState => case EntryMissing => case Ok =>
      }
    case DoSchedule(_, due, _) => ScheduleFrame(x.q, due);
    case DoRequeue(j) => if RequeueOutcomeOf(x.q.v, j).Requeued? {} else {}
    case _ =>
  }

  ghost function MarkedAs(k: EffectKey): System -> bool {
    (x: System) => k in x.q.ledger.marks
  }

  lemma MarkedInductive(s: Settings, k: EffectKey)
    ensures forall x, a, y :: MarkedAs(k)(x) && NextOf(s)(x, a, y) ==> MarkedAs(k)(y)
  {
    forall x, a, y | MarkedAs(k)(x) && NextOf(s)(x, a, y) ensures MarkedAs(k)(y) {
      LedgerFrame(s, x, a, y);
    }
  }

  /** An effect can be re-sent at any later point of the run: it is suppressed. */
  lemma ResentEffectIsHarmless(s: Settings, states: seq<System>, acts: seq<Action>, i: nat, k: nat, y: System)
    requires IsRun(s, states, acts) && i < k < |states| && Next(s, states[k], acts[i], y) && acts[i].DoEffect?
    ensures OnlyCounters(states[k], y)
  {
    StepOf(s, states, acts, i);
    LedgerFrame(s, states[i], acts[i], states[i + 1]);
    var job := states[i].written[acts[i].e];
    var key := s.KeyOf(job.jobType, job.id);
    MarkedInductive(s, key);
    Keeps(NextOf(s), MarkedAs(key), states, acts, i + 1, k);
    assert MarkedAs(key)(states[k]);
    WrittenForever(s, states, acts, i, k, acts[i].e);
  }

  /** A retry or DLQ move, first sent or re-sent, does something exactly when its caller owns the
      entry at that moment. */
  lemma MoveActsIffOwned(s: Settings, x: System, a: Action, y: System)
    requires GroupOk(x.q.g) && Next(s, x, a, y) && (a.DoRetry? || a.DoDead?)
    ensures OnlyCounters(x, y) <==> !Owns(x.q.g, a.w, a.e)
  {
    var j := x.written[a.e].id;
    if a.DoRetry? {
      match RetryOutcome(x.q, a.w, a.e, j) {
        case LeaseLost => case TerminalState => case EntryMissing => case Ok =>
      }
    } else {
      match DeadOutcome(x.q, a.w, a.e, j) {
        case LeaseLost => case TerminalState => case EntryMissing => case Ok =>
      }
    }
  }

  /** So a move that was refused is different from one that took effect: re-sent at a later point of
      the run, it is refused again if and only if its caller does not own the entry then. */
  lemma RefusedMoveLandsIffOwned(s: Settings, states: seq<System>, acts: seq<Action>, i: nat, k: nat, again: Action, y: System)
    requires IsRun(s, states, acts) && i < k < |states| && SameCall(again, acts[i]) && Next(s, states[k], again, y)
    requires (acts[i].DoRetry? || acts[i].DoDead?) && !Owns(states[i].q.g, acts[i].w, acts[i].e)
    ensures OnlyCounters(states[i], states[i + 1])
    ensures OnlyCounters(states[k], y) <==> !Owns(states[k].q.g, acts[i].w, acts[i].e)
  {
    AlwaysInv(s, states, acts, i);
    StepOf(s, states, acts, i);
    MoveActsIffOwned(s, states[i], acts[i], states[i + 1]);
    AlwaysInv(s, states, acts, k);
    MoveActsIffOwned(s, states[k], again, y);
  }
}
