/** The promises of the queue's contract, over every run. */
module Guarantees {
  import opened QueueTypes
  import opened Scripts
  import opened Protocol
  import opened Invariants
  import opened NoLoss
  import opened Reachable
  import opened Behaviors

  // ---------------------------------------------------------------- a job's terminal state

  function StateOf(v: Verdicts, j: JobId): Option<Terminal> {
    if j in v.done then Some(v.done[j]) else None
  }

  predicate Finishes(x: System, a: Action, j: JobId) {
    a.DoCommit? && a.e < |x.written| && x.written[a.e].id == j && !x.q.v.HasSucceeded(j)
  }

  /** The only moves: a commit turns none or DEAD into its own SUCCEEDED record and logs the one
      result, a DLQ move turns none into DEAD, and a requeue turns DEAD back into none. */
  predicate MayMove(x: System, a: Action, y: System, j: JobId) {
    var before, after := StateOf(x.q.v, j), StateOf(y.q.v, j);
    if Finishes(x, a, j) then
      after == Some(Succeeded(a.result, a.w, a.now)) && y.q.v.results == x.q.v.results + [j]
    else
      || after == before
      || (a.DoDead? && before.None? && after.Some? && after.value.Dead?)
      || (a.DoRequeue? && a.j == j && before.Some? && before.value.Dead? && after.None?)
  }

  lemma {:induction false} ScheduleFrame(q: Queue, due: seq<Job>)
    ensures var r := Schedule(q, due);
            r.v == q.v && r.ledger == q.ledger && r.door == q.door && r.reclaims == q.reclaims && r.g.pel == q.g.pel && r.g.delivered == q.g.delivered
    decreases |due|
  {
    if due != [] {
      ScheduleFrame(MoveOne(q, due[0]), due[1..]);
    }
  }

  /** Only commits, DLQ moves and requeues touch the jobs' records. */
  lemma VerdictsFrame(s: Settings, x: System, a: Action, y: System)
    requires Next(s, x, a, y) && !a.DoCommit? && !a.DoDead? && !a.DoRequeue?
    ensures y.q.v == x.q.v
  {
    match a
    case DoEnqueue(job, key, _) => if Admit(s, x.q, job, key).Added? {} else if Admit(s, x.q, job, key).Refused? {} else {}
    case DoHeartbeat(w, e, _) => if Owns(x.q.g, w, e) {} else {}
    case DoEffect(_, e) => if s.KeyOf(x.written[e].jobType, x.written[e].id) in x.q.ledger.marks {} else {}
    case DoRetry(w, e, _, _, _) =>
      match RetryOutcome(x.q, w, e, x.written[e].id) {
        case LeaseLost => case TerminalState => case EntryMissing => case Ok =>
      }
    case DoSchedule(_, due, _) => ScheduleFrame(x.q, due);
    case _ =>
  }

  lemma JobStep(s: Settings, x: System, a: Action, y: System, j: JobId)
    requires Next(s, x, a, y)
    ensures MayMove(x, a, y, j)
  {
    match a
    case DoCommit(w, e, result, now) => if x.q.v.HasSucceeded(x.written[e].id) {} else {}
    case DoDead(w, e, _, _, _, _, _) =>
      match DeadOutcome(x.q, w, e, x.written[e].id) {
        case LeaseLost => case TerminalState => case EntryMissing => case Ok =>
      }
    case DoRequeue(job) => if RequeueOutcomeOf(x.q.v, job).Requeued? {} else {}
    case _ => VerdictsFrame(s, x, a, y);
  }

  ghost function SucceededAs(j: JobId, t: Terminal): System -> bool {
    (x: System) => j in x.q.v.done && x.q.v.done[j] == t
  }

  lemma SucceededInductive(s: Settings, j: JobId, t: Terminal)
    requires t.Succeeded?
    ensures forall x, a, y :: SucceededAs(j, t)(x) && NextOf(s)(x, a, y) ==> SucceededAs(j, t)(y)
  {
    forall x, a, y | SucceededAs(j, t)(x) && NextOf(s)(x, a, y) ensures SucceededAs(j, t)(y) {
      JobStep(s, x, a, y, j);
    }
  }

  /** First wins: once SUCCEEDED, a job keeps that very record, whatever happens later. */
  lemma FirstSuccessWins(s: Settings, states: seq<System>, acts: seq<Action>, i: nat, k: nat, j: JobId)
    requires IsStretch(s, states, acts) && i <= k < |states| && states[i].q.v.HasSucceeded(j)
    ensures StateOf(states[k].q.v, j) == StateOf(states[i].q.v, j)
  {
    var t := states[i].q.v.done[j];
    SucceededInductive(s, j, t);
    Keeps(NextOf(s), SucceededAs(j, t), states, acts, i, k);
    assert SucceededAs(j, t)(states[k]);
  }

  /** Exactly one result per SUCCEEDED job, none per other job, however often it was delivered. */
  lemma ExactlyOneResult(s: Settings, states: seq<System>, acts: seq<Action>, i: nat, j: JobId)
    requires IsRun(s, states, acts) && i < |states|
    ensures multiset(states[i].q.v.results)[j] == if states[i].q.v.HasSucceeded(j) then 1 else 0
  {
    AlwaysInv(s, states, acts, i);
  }

  /** An effect key is in the append-only log once when its marker exists and never otherwise;
      and the effect of a SUCCEEDED job is in the log exactly once. */
  lemma EffectsHappenOnce(s: Settings, states: seq<System>, acts: seq<Action>, i: nat, j: JobId)
    requires IsRun(s, states, acts) && i < |states|
    ensures forall k :: multiset(states[i].q.ledger.log)[k] == if k in states[i].q.ledger.marks then 1 else 0
    ensures states[i].q.v.HasSucceeded(j) ==> j in states[i].accepted
    ensures states[i].q.v.HasSucceeded(j) && s.HasEffect(states[i].accepted[j]) ==>
              multiset(states[i].q.ledger.log)[s.KeyOf(states[i].accepted[j], j)] == 1
  {
    AlwaysInv(s, states, acts, i);
  }

  ghost predicate Unstuck(q: Queue, j: JobId) {
    || InDelayed(q.delayed, j)
    || exists e :: e in q.g.stream && q.g.stream[e].id == j &&
                   (e < q.g.delivered ==> e in q.g.pel && q.g.pel[e].owner in q.g.consumers)
  }

  /** An accepted job is finished, waiting for its retry, or in the stream, where it is either
      undelivered or pending under a consumer that was not pruned away. */
  lemma NeverLostNeverStuck(s: Settings, states: seq<System>, acts: seq<Action>, i: nat, j: JobId)
    requires IsRun(s, states, acts) && i < |states| && j in states[i].accepted
    ensures j in states[i].q.v.done || Unstuck(states[i].q, j)
  {
    AlwaysInv(s, states, acts, i);
    var q := states[i].q;
    assert Accounted(q, j);
    if j !in q.v.done && InStream(q.g.stream, j) {
      var e :| e in q.g.stream && q.g.stream[e].id == j;
      assert e < q.g.delivered ==> e in q.g.pel;
    }
  }

  /** The DLQ is exactly the DEAD jobs, one entry each; and the counters conserve. */
  lemma DlqIsTheDeadJobs(s: Settings, states: seq<System>, acts: seq<Action>, i: nat, j: JobId)
    requires IsRun(s, states, acts) && i < |states|
    ensures var v := states[i].q.v;
            v.IsDead(j) <==> (exists d :: d in v.dlq && v.dlq[d].jobId == j)
    ensures var v := states[i].q.v;
            forall d :: d in v.dlq && v.dlq[d].jobId == j ==> v.IsDead(j) && d == v.done[j].entry
    ensures var q := states[i].q;
            && q.stats.dead == |q.v.dlq| + q.stats.lateSuccesses + q.stats.requeued
            && q.stats.processed == |q.v.results|
            && q.stats.effectsApplied == |q.ledger.log|
            && q.g.nextId == states[i].enqueued + q.stats.scheduled + q.stats.requeued
  {
    AlwaysInv(s, states, acts, i);
    var v := states[i].q.v;
    if v.IsDead(j) {
      assert v.dlq[v.done[j].entry].jobId == j;
    }
  }
}
