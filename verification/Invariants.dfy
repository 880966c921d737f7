/** What every reachable state of the queue satisfies. */
module Invariants {
  import opened QueueTypes
  import opened Scripts
  import opened Protocol

  // ---------------------------------------------------------------- statements about the queue

  /** Every stream entry is either undelivered or pending under an existing consumer, and
      nothing else is pending. */
  ghost predicate GroupOk(g: Group) {
    && g.delivered <= g.nextId
    && (forall e :: e in g.stream ==> e < g.nextId)
    && (forall e :: e in g.pel ==> e in g.stream && e < g.delivered)
    && (forall e :: e in g.pel ==> g.pel[e].owner in g.consumers && 1 <= g.pel[e].deliveries)
    && (forall e :: e in g.stream && e < g.delivered ==> e in g.pel)
  }

  ghost predicate BuriedAt(v: Verdicts, j: JobId, d: EntryId) {
    v.IsDead(j) && v.done[j].entry == d
  }

  /** The DLQ holds exactly the DEAD jobs, each once, in the entry its record names; and the
      results log holds each SUCCEEDED job once and no other. */
  ghost predicate VerdictsOk(v: Verdicts) {
    && (forall d :: d in v.dlq ==> d < v.nextDead && BuriedAt(v, v.dlq[d].jobId, d))
    && (forall d :: d in v.dlq ==> v.dlq[d].fields.Some? && v.dlq[d].fields.value.id == v.dlq[d].jobId)
    && (forall j :: v.IsDead(j) ==> v.done[j].entry in v.dlq && v.dlq[v.done[j].entry].jobId == j)
    && (forall j :: multiset(v.results)[j] == if v.HasSucceeded(j) then 1 else 0)
  }

  /** One logged effect per ledger marker and none without. */
  ghost predicate LedgerOk(l: Ledger) {
    forall k :: multiset(l.log)[k] == if k in l.marks then 1 else 0
  }

  /** Conservation: what the counters say was moved is what the logs, the DLQ and the delayed
      set hold. (A retry of a copy identical to one already delayed collapses into it.) */
  ghost predicate CountersOk(st: Stats, dead: nat, results: nat, effects: nat, delayed: nat) {
    && st.dead == dead + st.lateSuccesses + st.requeued
    && st.processed == results
    && st.effectsApplied == effects
    && delayed + st.scheduled <= st.retried
  }

  ghost predicate QueueInv(q: Queue) {
    && GroupOk(q.g) && VerdictsOk(q.v) && LedgerOk(q.ledger)
    && CountersOk(q.stats, |q.v.dlq|, |q.v.results|, |q.ledger.log|, |q.delayed|)
  }

  // ---------------------------------------------------------------- kept by the shared parts

  lemma ExitKeeps(g: Group, e: EntryId)
    requires GroupOk(g)
    ensures GroupOk(Exit(g, e))
  {
  }

  lemma AppendKeeps(g: Group, job: Job)
    requires GroupOk(g)
    ensures GroupOk(Append(g, job))
  {
  }

  lemma BuryKeeps(v: Verdicts, d: DeadJob)
    requires VerdictsOk(v) && d.jobId !in v.done && d.fields.Some? && d.fields.value.id == d.jobId
    ensures VerdictsOk(Bury(v, d)) && |Bury(v, d).dlq| == |v.dlq| + 1
  {
    assert v.nextDead !in v.dlq;
  }

  lemma UnburyKeeps(v: Verdicts, j: JobId)
    requires VerdictsOk(v) && v.IsDead(j)
    ensures VerdictsOk(Unbury(v, j)) && |Unbury(v, j).dlq| == |v.dlq| - 1
  {
  }

  lemma SucceedKeeps(v: Verdicts, j: JobId, t: Terminal)
    requires VerdictsOk(v) && !v.HasSucceeded(j) && t.Succeeded?
    ensures VerdictsOk(Succeed(v, j, t))
    ensures |Succeed(v, j, t).dlq| == |v.dlq| - if v.IsDead(j) then 1 else 0
  {
    assert multiset(v.results + [j]) == multiset(v.results) + multiset{j};
  }

  lemma FetchOneKeeps(g: Group, w: Worker, now: int)
    requires GroupOk(g) && w in g.consumers
    ensures GroupOk(FetchOne(g, w, now)) && w in FetchOne(g, w, now).consumers
  {
    if NextFrom(g.stream, g.delivered, g.nextId) == g.nextId {} else {}
  }

  lemma {:induction false} FetchAllKeeps(g: Group, w: Worker, count: nat, now: int)
    requires GroupOk(g) && w in g.consumers
    ensures GroupOk(FetchAll(g, w, count, now))
    decreases count
  {
    if count > 0 {
      FetchOneKeeps(g, w, now);
      FetchAllKeeps(FetchOne(g, w, now), w, count - 1, now);
    }
  }

  // ---------------------------------------------------------------- kept by every script

  lemma EnqueueKeeps(s: Settings, q: Queue, job: Job, key: Option<IdemKey>, countAs: CountAs)
    requires QueueInv(q)
    ensures QueueInv(Enqueue(s, q, job, key, countAs))
  {
    AppendKeeps(q.g, job);
    match Admit(s, q, job, key) {
      case DuplicateOf(_) =>
      case Refused(_) => if countAs.CountRejected? {} else if countAs.CountBlocked? {} else {}
      case Added(_, _) =>
    }
  }

  lemma HeartbeatKeeps(q: Queue, w: Worker, e: EntryId, now: int)
    requires QueueInv(q)
    ensures QueueInv(Heartbeat(q, w, e, now))
  {
    if Owns(q.g, w, e) {} else {}
  }

  lemma SuppressKeeps(q: Queue, e: EntryId)
    requires QueueInv(q)
    ensures QueueInv(Suppress(q, e))
  {
    ExitKeeps(q.g, e);
  }

  lemma CommitKeeps(q: Queue, w: Worker, e: EntryId, j: JobId, result: string, now: int)
    requires QueueInv(q)
    ensures QueueInv(Commit(q, w, e, j, result, now))
  {
    if q.v.HasSucceeded(j) {
      SuppressKeeps(q, e);
    } else {
      ExitKeeps(q.g, e);
      SucceedKeeps(q.v, j, Succeeded(result, w, now));
    }
  }

  lemma RetryKeeps(q: Queue, w: Worker, e: EntryId, j: JobId, attempt: nat, delay: int, timedOut: bool, now: int)
    requires QueueInv(q)
    ensures QueueInv(Retry(q, w, e, j, attempt, delay, timedOut, now))
  {
    ExitKeeps(q.g, e);
    match RetryOutcome(q, w, e, j) {
      case LeaseLost =>
      case TerminalState =>
      case EntryMissing =>
      case Ok => if timedOut {} else {}
    }
  }

  lemma DeadLetterKeeps(q: Queue, w: Worker, e: EntryId, j: JobId, reason: DeadReason, error: string,
                        attempts: nat, timedOut: bool, now: int)
    requires QueueInv(q) && (e in q.g.stream ==> q.g.stream[e].id == j)
    ensures QueueInv(DeadLetter(q, w, e, j, reason, error, attempts, timedOut, now))
  {
    ExitKeeps(q.g, e);
    match DeadOutcome(q, w, e, j) {
      case LeaseLost =>
      case TerminalState =>
      case EntryMissing =>
      case Ok =>
        BuryKeeps(q.v, DlqEntry(q.g, w, e, j, reason, error, attempts, now));
        if timedOut {} else {}
    }
  }

  lemma MoveOneKeeps(q: Queue, m: Job)
    requires QueueInv(q) && m in q.delayed
    ensures QueueInv(MoveOne(q, m))
  {
    AppendKeeps(q.g, m);
  }

  lemma {:induction false} ScheduleKeeps(q: Queue, due: seq<Job>)
    requires QueueInv(q)
    requires forall m :: m in due ==> m in q.delayed
    requires forall i, k :: 0 <= i < k < |due| ==> due[i] != due[k]
    ensures QueueInv(Schedule(q, due))
    decreases |due|
  {
    if due != [] {
      MoveOneKeeps(q, due[0]);
      ScheduleKeeps(MoveOne(q, due[0]), due[1..]);
    }
  }

  lemma RequeueKeeps(q: Queue, j: JobId)
    requires QueueInv(q)
    ensures QueueInv(Requeue(q, j))
  {
    if RequeueOutcomeOf(q.v, j).Requeued? {
      AppendKeeps(q.g, Revived(q.v, j));
      UnburyKeeps(q.v, j);
    }
  }

  lemma ApplyKeeps(q: Queue, key: EffectKey)
    requires QueueInv(q)
    ensures QueueInv(Apply(q, key))
  {
    assert multiset(q.ledger.log + [key]) == multiset(q.ledger.log) + multiset{key};
    if key in q.ledger.marks {} else {}
  }

  lemma PruneKeeps(s: Settings, q: Queue, w: Worker, now: int)
    requires QueueInv(q)
    ensures QueueInv(Prune(s, q, w, now))
  {
  }
}
