/** Who holds what: leases, delivery counts, and what a reclaim pass does to them. */
module Leases {
  import opened QueueTypes
  import opened Scripts
  import opened Protocol
  import opened Invariants
  import opened Reachable
  import opened Guarantees
  import opened Passes
  import StepEffects

  lemma {:induction false} FetchPel(g: Group, w: Worker, count: nat, now: int, e: EntryId)
    requires g.delivered <= g.nextId
    ensures var r := FetchAll(g, w, count, now);
            && g.delivered <= r.delivered
            && (e < g.delivered ==> (e in r.pel <==> e in g.pel) && (e in g.pel ==> r.pel[e] == g.pel[e]))
    decreases count
  {
    if count > 0 {
      if NextFrom(g.stream, g.delivered, g.nextId) == g.nextId {} else {}
      FetchPel(FetchOne(g, w, now), w, count - 1, now, e);
    }
  }

  predicate CallsAbout(a: Action, e: EntryId) {
    (a.DoCommit? || a.DoRetry? || a.DoDead?) && a.e == e
  }

  /** Besides a fetch, a reclaim and a heartbeat, a step can only drop its own entry from the PEL. */
  lemma PelFrame(s: Settings, x: System, a: Action, y: System)
    requires Next(s, x, a, y) && !a.DoFetch? && !a.DoReclaim? && !a.DoHeartbeat?
    ensures y.q.g.delivered == x.q.g.delivered
    ensures y.q.g.pel == x.q.g.pel || exists e :: CallsAbout(a, e) && y.q.g.pel == x.q.g.pel - {e}
  {
    match a
    case DoEnqueue(job, key, _) => if Admit(s, x.q, job, key).Added? {} else if Admit(s, x.q, job, key).Refused? {} else {}
    case DoEffect(_, e1) => if s.KeyOf(x.written[e1].jobType, x.written[e1].id) in x.q.ledger.marks {} else {}
    case DoCommit(_, e1, _, _) =>
      assert CallsAbout(a, e1);
      if x.q.v.HasSucceeded(x.written[e1].id) {} else {}
    case DoRetry(w, e1, _, _, _) =>
      assert CallsAbout(a, e1);
      match RetryOutcome(x.q, w, e1, x.written[e1].id) {
        case LeaseLost => case TerminalState => case EntryMissing => case Ok =>
      }
    case DoDead(w, e1, _, _, _, _, _) =>
      assert CallsAbout(a, e1);
      match DeadOutcome(x.q, w, e1, x.written[e1].id) {
        case LeaseLost => case TerminalState => case EntryMissing => case Ok =>
      }
    case DoSchedule(_, due, _) => ScheduleFrame(x.q, due);
    case DoRequeue(j) => if RequeueOutcomeOf(x.q.v, j).Requeued? {} else {}
    case _ =>
  }

  predicate ReclaimOf(s: Settings, x: System, a: Action, e: EntryId) {
    a.DoReclaim? && e in a.ids && Expired(s, x.q.g, e, a.now)
  }

  lemma ReclaimLease(s: Settings, x: System, a: Action, y: System, e: EntryId)
    requires GroupOk(x.q.g) && Next(s, x, a, y) && a.DoReclaim? && e in x.q.g.pel
    ensures if ReclaimOf(s, x, a, e) then
              ClaimedOrPutBack(s, x.q.g.pel[e], y.q.g.pel[e], (a.w, e) in Taken(ReclaimPass(s, x.q.g, a.w, a.ids, a.gone, a.slots, a.now), a.w), a.w, a.now)
            else
              y.q.g.pel[e] == x.q.g.pel[e]
  {
    assert a.gone == {} && x.q.g.pel - a.gone == x.q.g.pel;
    ClaimAllEffect(s, Pass(x.q.g.pel, a.slots, []), a.w, a.ids, a.now, e);
  }

  /** A pending entry changes hands only when a reclaim finds its lease expired, and its delivery
      count rises only when that reclaim hands it out: not on a heartbeat, not on a put-back. */
  lemma LeaseStep(s: Settings, x: System, a: Action, y: System, e: EntryId)
    requires GroupOk(x.q.g) && Next(s, x, a, y) && e in x.q.g.pel && e in y.q.g.pel
    ensures if ReclaimOf(s, x, a, e) then
              ClaimedOrPutBack(s, x.q.g.pel[e], y.q.g.pel[e], (a.w, e) in Taken(ReclaimPass(s, x.q.g, a.w, a.ids, a.gone, a.slots, a.now), a.w), a.w, a.now)
            else
              y.q.g.pel[e].(since := 0) == x.q.g.pel[e].(since := 0)
  {
    if a.DoReclaim? {
      ReclaimLease(s, x, a, y, e);
    } else if a.DoFetch? {
      FetchPel(Register(x.q.g, a.w, a.now), a.w, a.count, a.now, e);
    } else if a.DoHeartbeat? {
      if Owns(x.q.g, a.w, a.e) {} else {}
    } else {
      PelFrame(s, x, a, y);
    }
  }

  // ---------------------------------------------------------------- a renewed lease holds

  /** The entry has been read, and while it is pending its idle time counts from `t` or later. */
  predicate IsIdleFrom(x: System, e: EntryId, t: int) {
    e < x.q.g.delivered && (e in x.q.g.pel ==> t <= x.q.g.pel[e].since)
  }

  predicate IsNotBefore(a: Action, t: int) {
    TimeOf(a).Some? ==> t <= TimeOf(a).value
  }

  lemma IdleStep(s: Settings, x: System, a: Action, y: System, e: EntryId, t: int)
    requires GroupOk(x.q.g) && Next(s, x, a, y) && IsIdleFrom(x, e, t) && IsNotBefore(a, t)
    ensures IsIdleFrom(y, e, t)
  {
    if a.DoReclaim? {
      if e in x.q.g.pel {
        ReclaimLease(s, x, a, y, e);
      }
    } else if a.DoFetch? {
      FetchPel(Register(x.q.g, a.w, a.now), a.w, a.count, a.now, e);
    } else if a.DoHeartbeat? {
      if Owns(x.q.g, a.w, a.e) {} else {}
    } else {
      PelFrame(s, x, a, y);
    }
  }

  lemma IdleAt(s: Settings, states: seq<System>, acts: seq<Action>, k: nat, e: EntryId, t: int)
    requires IsRun(s, states, acts) && k < |acts| && IsIdleFrom(states[k], e, t) && IsNotBefore(acts[k], t)
    ensures IsIdleFrom(states[k + 1], e, t)
  {
    AlwaysInv(s, states, acts, k);
    StepOf(s, states, acts, k);
    IdleStep(s, states[k], acts[k], states[k + 1], e, t);
  }

  /** From step `i` on, the clock never reads less than `t`. */
  ghost predicate NoneBefore(acts: seq<Action>, i: nat, t: int) {
    forall m {:trigger acts[m]} :: i <= m < |acts| ==> IsNotBefore(acts[m], t)
  }

  lemma {:induction false} StaysIdleFrom(s: Settings, states: seq<System>, acts: seq<Action>, i: nat, k: nat, e: EntryId, t: int)
    requires IsRun(s, states, acts) && i <= k <= |acts| && NoneBefore(acts, i, t) && IsIdleFrom(states[i], e, t)
    ensures IsIdleFrom(states[k], e, t)
    decreases k
  {
    if i < k {
      StaysIdleFrom(s, states, acts, i, k - 1, e, t);
      IdleAt(s, states, acts, k - 1, e, t);
    }
  }

  lemma NotClaimable(s: Settings, states: seq<System>, acts: seq<Action>, k: nat, e: EntryId, t: int)
    requires IsRun(s, states, acts) && k < |acts| && acts[k].DoReclaim? && IsIdleFrom(states[k], e, t)
    ensures acts[k].now < t + s.lease ==> e !in acts[k].ids
  {
    StepOf(s, states, acts, k);
  }

  lemma BeatRenews(s: Settings, states: seq<System>, acts: seq<Action>, i: nat)
    requires IsRun(s, states, acts) && i < |acts| && acts[i].DoHeartbeat? && Owns(states[i].q.g, acts[i].w, acts[i].e)
    ensures IsIdleFrom(states[i + 1], acts[i].e, acts[i].now)
  {
    AlwaysInv(s, states, acts, i);
    StepOf(s, states, acts, i);
    StepEffects.BeatRenewsIff(s, states[i], acts[i], states[i + 1]);
  }

  lemma ClockedAfter(acts: seq<Action>, i: nat, first: int)
    requires Clocked(acts, first) && i < |acts| && TimeOf(acts[i]).Some?
    ensures NoneBefore(acts, i + 1, TimeOf(acts[i]).value)
  {
  }

  /** A heartbeat holds its entry: after a beat of the owner at time `t`, no reclaim before `t + lease` claims
      the entry, whoever makes it and whatever happened in between. */
  lemma BeatHoldsTheEntry(s: Settings, states: seq<System>, acts: seq<Action>, i: nat, k: nat, first: int)
    requires IsRun(s, states, acts) && Clocked(acts, first) && i < k < |acts|
    requires acts[i].DoHeartbeat? && Owns(states[i].q.g, acts[i].w, acts[i].e)
    requires acts[k].DoReclaim? && acts[k].now < acts[i].now + s.lease
    ensures acts[i].e !in acts[k].ids
  {
    BeatRenews(s, states, acts, i);
    ClockedAfter(acts, i, first);
    StaysIdleFrom(s, states, acts, i + 1, k, acts[i].e, acts[i].now);
    NotClaimable(s, states, acts, k, acts[i].e, acts[i].now);
  }
}
