/** What each step does to every key of the queue, said without the scripts: which branch is taken when,
    what is answered, and what is different afterwards. */
module StepEffects {
  import opened QueueTypes
  import opened Protocol
  import opened Invariants
  import opened Passes
  import Scripts

  /** The two keys of a step's keys that it may change: all others are as before. */
  predicate OnlyStream(x: Queue, y: Queue) {
    y == x.(g := y.g, stats := y.stats)
  }

  // ---------------------------------------------------------------- enqueue

  /** Whether the producer's key, if it has one, is known. */
  predicate IsKnown(x: System, a: Action)
    requires a.DoEnqueue?
  {
    a.key.Some? && a.key.value in x.q.door.idem
  }

  function Waiting(q: Queue): nat {
    |q.g.stream| + |q.delayed|
  }

  /** A repeat changes nothing. Any other call is taken exactly when the depth is below the low watermark, or
      the queue is not marked full and the depth is below the high one; and afterwards the queue is marked
      full exactly when it was not taken. */
  lemma AdmittedIff(s: Settings, x: System, a: Action, y: System)
    requires s.Valid() && Next(s, x, a, y) && a.DoEnqueue?
    ensures var reply := Scripts.Admit(s, x.q, a.job, a.key);
            if IsKnown(x, a) then reply == DuplicateOf(x.q.door.idem[a.key.value]) && y.q == x.q
            else if Waiting(x.q) < s.low || (!x.q.door.full && Waiting(x.q) < s.high) then
              && reply == Added(a.job.id, Waiting(x.q) + 1) && OnlyDoorAndStream(x.q, y.q) && y.q.stats == x.q.stats
              && y.q.g == x.q.g.(stream := x.q.g.stream[x.q.g.nextId := a.job], nextId := x.q.g.nextId + 1)
              && !y.q.door.full && y.q.door.idem == (if a.key.Some? then x.q.door.idem[a.key.value := a.job.id] else x.q.door.idem)
            else
              && reply == Refused(Waiting(x.q)) && OnlyDoorAndStream(x.q, y.q) && y.q.g == x.q.g
              && y.q.door == Door(x.q.door.idem, true) && y.q.stats == RefusalCounted(x.q.stats, a.countAs)
  {
    if a.countAs.CountRejected? {} else if a.countAs.CountBlocked? {} else {}
  }

  predicate OnlyDoorAndStream(x: Queue, y: Queue) {
    y == x.(g := y.g, door := y.door, stats := y.stats)
  }

  /** Of the two refusal counters at most one moves, by one. */
  function RefusalCounted(st: Stats, countAs: CountAs): Stats {
    st.(rejected := st.rejected + if countAs.CountRejected? then 1 else 0, blocked := st.blocked + if countAs.CountBlocked? then 1 else 0)
  }

  // ---------------------------------------------------------------- heartbeat

  /** A beat of the owner renews the lease and no other; anybody else's is refused and renews nothing. */
  lemma BeatRenewsIff(s: Settings, x: System, a: Action, y: System)
    requires Next(s, x, a, y) && a.DoHeartbeat?
    ensures var reply, pel := Scripts.HeartbeatOutcome(x.q, a.w, a.e), x.q.g.pel;
            && OnlyStream(x.q, y.q)
            && if a.e in pel && pel[a.e].owner == a.w then
                 && reply == Ok && y.q.g.pel == pel[a.e := Lease(a.w, a.now, pel[a.e].deliveries)]
                 && y.q.g == x.q.g.(pel := y.q.g.pel, consumers := x.q.g.consumers[a.w := a.now])
                 && y.q.stats == x.q.stats.(heartbeats := x.q.stats.heartbeats + 1)
               else
                 reply == LeaseLost && y.q.g == x.q.g && y.q.stats == x.q.stats.(leaseLost := x.q.stats.leaseLost + 1)
  {
  }

  // ---------------------------------------------------------------- retry and dead

  /** The queue after the entry was acknowledged and deleted. */
  predicate IsOut(x: Group, e: EntryId, y: Group) {
    y == x.(stream := x.stream - {e}, pel := x.pel - {e})
  }

  /** What a retry or DLQ move does when it may not act: nothing but its counter for a stranger; and for a
      job that has ended, the copy is dropped. */
  ghost predicate IsRefused(x: Queue, w: Worker, e: EntryId, j: JobId, reply: Outcome, y: Queue) {
    if !(e in x.g.pel && x.g.pel[e].owner == w) then
      reply == LeaseLost && y == x.(stats := x.stats.(leaseLost := x.stats.leaseLost + 1))
    else
      && j in x.v.done && reply == TerminalState && OnlyStream(x, y) && IsOut(x.g, e, y.g)
      && y.stats == x.stats.(duplicatesSuppressed := x.stats.duplicatesSuppressed + 1)
  }

  /** What is kept of the stream by every step: pending entries are in it, as they were written. */
  ghost predicate EntriesOk(x: System) {
    GroupOk(x.q.g) && forall e :: e in x.q.g.stream ==> e < |x.written| && x.q.g.stream[e] == x.written[e]
  }

  predicate MayAct(x: Queue, w: Worker, e: EntryId, j: JobId) {
    e in x.g.pel && x.g.pel[e].owner == w && j !in x.v.done
  }

  /** A retry by the owner of an unfinished job's entry parks it, with the next attempt's number, until its
      backoff is over. */
  lemma RetryParks(s: Settings, x: System, a: Action, y: System)
    requires EntriesOk(x) && Next(s, x, a, y) && a.DoRetry?
    ensures var job := x.written[a.e];
            var reply := Scripts.RetryOutcome(x.q, a.w, a.e, job.id);
            if MayAct(x.q, a.w, a.e, job.id) then
              && reply == Ok && y.q == x.q.(g := y.q.g, delayed := y.q.delayed, stats := y.q.stats) && IsOut(x.q.g, a.e, y.q.g)
              && y.q.delayed == x.q.delayed[job.(attempt := job.attempt + 1) := a.now + a.delay]
              && y.q.stats == x.q.stats.(retried := x.q.stats.retried + 1, timeouts := x.q.stats.timeouts + if a.timedOut then 1 else 0)
            else IsRefused(x.q, a.w, a.e, job.id, reply, y.q)
  {
    match Scripts.RetryOutcome(x.q, a.w, a.e, x.written[a.e].id) {
      case LeaseLost => case TerminalState => case EntryMissing => case Ok => if a.timedOut {} else {}
    }
  }

  /** A DLQ move by the owner of an unfinished job's entry appends it to the DLQ with all that is known of it,
      and records the job as DEAD. */
  lemma DeadBuries(s: Settings, x: System, a: Action, y: System)
    requires EntriesOk(x) && Next(s, x, a, y) && a.DoDead?
    ensures var job, d := x.written[a.e], x.q.v.nextDead;
            var reply := Scripts.DeadOutcome(x.q, a.w, a.e, job.id);
            if MayAct(x.q, a.w, a.e, job.id) then
              && reply == Ok && y.q == x.q.(g := y.q.g, v := y.q.v, stats := y.q.stats) && IsOut(x.q.g, a.e, y.q.g)
              && y.q.v.nextDead == d + 1 && y.q.v.results == x.q.v.results
              && y.q.v.dlq == x.q.v.dlq[d := DeadJob(job.id, Some(job), a.reason, a.error, a.attempts, x.q.g.pel[a.e].deliveries, a.w, a.now, a.e)]
              && y.q.v.done == x.q.v.done[job.id := Dead(d, a.reason, a.error, a.w, a.now)]
              && y.q.stats == x.q.stats.(dead := x.q.stats.dead + 1, timeouts := x.q.stats.timeouts + if a.timedOut then 1 else 0)
            else IsRefused(x.q, a.w, a.e, job.id, reply, y.q)
  {
    match Scripts.DeadOutcome(x.q, a.w, a.e, x.written[a.e].id) {
      case LeaseLost => case TerminalState => case EntryMissing => case Ok => if a.timedOut {} else {}
    }
  }

  // ---------------------------------------------------------------- commit

  /** A commit always takes the entry out. If the job has SUCCEEDED it does nothing more. If not, the job is
      SUCCEEDED with the committer's own data and has one result more; and if it was DEAD, it answers that the
      success is late, and the DLQ loses the job's entry and no other. */
  lemma CommitDecides(s: Settings, x: System, a: Action, y: System)
    requires Next(s, x, a, y) && a.DoCommit?
    ensures var j, done := x.written[a.e].id, x.q.v.done;
            var reply, success := Scripts.CommitOutcomeOf(x.q.v, j), Succeeded(a.result, a.w, a.now);
            && y.q == x.q.(g := y.q.g, v := y.q.v, stats := y.q.stats) && IsOut(x.q.g, a.e, y.q.g)
            && if j in done && done[j].Succeeded? then
                 reply == Duplicate && y.q.v == x.q.v
                 && y.q.stats == x.q.stats.(duplicatesSuppressed := x.q.stats.duplicatesSuppressed + 1)
               else if j in done then
                 && reply == LateSuccess
                 && y.q.v == x.q.v.(done := done[j := success], results := x.q.v.results + [j], dlq := x.q.v.dlq - {done[j].entry})
                 && y.q.stats == x.q.stats.(processed := x.q.stats.processed + 1, lateSuccesses := x.q.stats.lateSuccesses + 1)
               else
                 reply == Committed && y.q.v == x.q.v.(done := done[j := success], results := x.q.v.results + [j])
                 && y.q.stats == x.q.stats.(processed := x.q.stats.processed + 1)
  {
  }

  // ---------------------------------------------------------------- effect and requeue

  /** An effect is logged, and its marker set, exactly if the marker was not there. */
  lemma EffectAppliesIff(s: Settings, x: System, a: Action, y: System)
    requires Next(s, x, a, y) && a.DoEffect?
    ensures var job := x.written[a.e];
            var k, ledger := EffectKey(s.effects[job.jobType], job.id), x.q.ledger;
            && y.q == x.q.(ledger := y.q.ledger, stats := y.q.stats)
            && if k in ledger.marks then
                 y.q.ledger == ledger && y.q.stats == x.q.stats.(effectsSuppressed := x.q.stats.effectsSuppressed + 1)
               else
                 && y.q.ledger.marks == ledger.marks + {k} && y.q.ledger.log == ledger.log + [k]
                 && y.q.stats == x.q.stats.(effectsApplied := x.q.stats.effectsApplied + 1)
  {
  }

  /** A DEAD job's fields go back on the stream, as the newest entry and with attempt 0; its record and its DLQ
      entry go, and nothing else does. A job that is not DEAD is left alone. */
  lemma RequeueRevivesIff(s: Settings, x: System, a: Action, y: System)
    requires VerdictsOk(x.q.v) && Next(s, x, a, y) && a.DoRequeue?
    ensures var reply, v, e := Scripts.RequeueOutcomeOf(x.q.v, a.j), x.q.v, x.q.g.nextId;
            if a.j in v.done && v.done[a.j].Dead? then
              var d := v.done[a.j].entry;
              && reply == Requeued && d in v.dlq && v.dlq[d].jobId == a.j && v.dlq[d].fields.Some?
              && y.q == x.q.(g := y.q.g, v := y.q.v, stats := y.q.stats)
              && y.q.g == x.q.g.(stream := x.q.g.stream[e := v.dlq[d].fields.value.(attempt := 0)], nextId := e + 1)
              && y.q.v == v.(dlq := v.dlq - {d}, done := v.done - {a.j})
              && y.q.stats == x.q.stats.(requeued := x.q.stats.requeued + 1)
            else reply == NotDead && y.q == x.q
  {
    if a.j in x.q.v.done && x.q.v.done[a.j].Dead? {
      assert x.q.v.IsDead(a.j);
    }
  }

  // ---------------------------------------------------------------- prune

  /** A consumer stays exactly if it is the caller, or was active within the prune interval, or has anything
      pending; and whatever is pending stays. */
  lemma PruneDropsIff(s: Settings, x: System, a: Action, y: System)
    requires Next(s, x, a, y) && a.DoPrune?
    ensures OnlyStream(x.q, y.q) && y.q.g == x.q.g.(consumers := y.q.g.consumers)
    ensures forall c :: c in y.q.g.consumers <==>
              c in x.q.g.consumers && (c == a.w || a.now < x.q.g.consumers[c] + s.pruneIdle || exists e :: Scripts.Owns(x.q.g, c, e))
    ensures forall c :: c in y.q.g.consumers ==> y.q.g.consumers[c] == x.q.g.consumers[c]
    ensures y.q.stats == x.q.stats.(consumersPruned := x.q.stats.consumersPruned + |x.q.g.consumers| - |y.q.g.consumers|)
  {
    var gone := Scripts.Prunable(s, x.q.g, a.w, a.now);
    assert (x.q.g.consumers - gone).Keys == x.q.g.consumers.Keys - gone && gone <= x.q.g.consumers.Keys;
    forall c | c in x.q.g.consumers && c !in gone && c != a.w && a.now - x.q.g.consumers[c] >= s.pruneIdle
      ensures exists e :: Scripts.Owns(x.q.g, c, e)
    {
      var e :| e in x.q.g.pel && x.q.g.pel[e].owner == c;
      assert Scripts.Owns(x.q.g, c, e);
    }
  }

  // ---------------------------------------------------------------- fetch and schedule

  /** The entries that nobody has read, from `from` on and below `upto`. */
  function Unread(g: Group, from: EntryId, upto: EntryId): set<EntryId> {
    set e | e in g.stream && from <= e < upto
  }

  /** `r` is `g` after its oldest unread entries, up to `count`, were handed to `w`. */
  ghost predicate AreRead(g: Group, w: Worker, count: nat, now: int, r: Group) {
    var news := Unread(g, g.delivered, r.delivered);
    && g.delivered <= r.delivered <= g.nextId && r == g.(delivered := r.delivered, pel := r.pel)
    && r.pel == g.pel + (map e | e in news :: Lease(w, now, 1))
    && |news| <= count && (|news| < count ==> Unread(g, r.delivered, g.nextId) == {})
  }

  lemma NoneRead(g: Group, w: Worker, count: nat, now: int)
    requires g.delivered <= g.nextId && (0 < count ==> Unread(g, g.delivered, g.nextId) == {})
    ensures AreRead(g, w, count, now, g)
  {
    assert Unread(g, g.delivered, g.delivered) == {};
  }

  lemma OneMoreRead(g: Group, w: Worker, count: nat, now: int, e: EntryId, g1: Group, r: Group)
    requires g.delivered <= e < g.nextId && e in g.stream && forall i :: g.delivered <= i < e ==> i !in g.stream
    requires g1 == g.(delivered := e + 1, pel := g.pel[e := Lease(w, now, 1)]) && AreRead(g1, w, count, now, r)
    ensures AreRead(g, w, count + 1, now, r)
  {
    var first, rest := Unread(g, g.delivered, r.delivered), Unread(g1, e + 1, r.delivered);
    forall k ensures k in first <==> k == e || k in rest {}
    assert first == {e} + rest && e !in rest;
    assert r.pel == g.pel + (map k | k in first :: Lease(w, now, 1));
    assert Unread(g1, r.delivered, g.nextId) == Unread(g, r.delivered, g.nextId);
  }

  lemma {:induction false} FetchedAre(g: Group, w: Worker, count: nat, now: int)
    requires g.delivered <= g.nextId
    ensures AreRead(g, w, count, now, Scripts.FetchAll(g, w, count, now))
    decreases count
  {
    var e := Scripts.NextFrom(g.stream, g.delivered, g.nextId);
    if count == 0 || e == g.nextId {
      if e == g.nextId {
        FetchedNone(g, w, count, now);
        assert Unread(g, g.delivered, g.nextId) == {};
      }
      NoneRead(g, w, count, now);
    } else {
      FetchedAre(Scripts.FetchOne(g, w, now), w, count - 1, now);
      OneMoreRead(g, w, count - 1, now, e, Scripts.FetchOne(g, w, now), Scripts.FetchAll(g, w, count, now));
    }
  }

  lemma {:induction false} FetchedNone(g: Group, w: Worker, count: nat, now: int)
    requires g.delivered <= g.nextId && Scripts.NextFrom(g.stream, g.delivered, g.nextId) == g.nextId
    ensures Scripts.FetchAll(g, w, count, now) == g
    decreases count
  {
    if count > 0 {
      FetchedNone(g, w, count - 1, now);
    }
  }

  /** A read hands out the oldest unread entries, `count` of them or all there are, each for the first time. */
  lemma FetchReadsOldest(s: Settings, x: System, a: Action, y: System)
    requires Next(s, x, a, y) && a.DoFetch?
    ensures y.q == x.q.(g := y.q.g)
    ensures AreRead(x.q.g.(consumers := x.q.g.consumers[a.w := a.now]), a.w, a.count, a.now, y.q.g)
  {
    FetchedAre(Scripts.Register(x.q.g, a.w, a.now), a.w, a.count, a.now);
  }

  /** The queue after the members `due` became its newest entries, in order. */
  ghost predicate AreMoved(x: Queue, due: seq<Job>, y: Queue) {
    && y == x.(g := y.g, delayed := y.delayed, stats := x.stats.(scheduled := x.stats.scheduled + |due|))
    && y.g == x.g.(stream := y.g.stream, nextId := x.g.nextId + |due|)
    && (forall m :: m in y.delayed <==> m in x.delayed && m !in due) && (forall m :: m in y.delayed ==> y.delayed[m] == x.delayed[m])
    && (forall e :: e in y.g.stream <==> e in x.g.stream || x.g.nextId <= e < x.g.nextId + |due|)
    && (forall e :: e in x.g.stream && e < x.g.nextId ==> y.g.stream[e] == x.g.stream[e])
    && forall i :: 0 <= i < |due| ==> x.g.nextId + i in y.g.stream && y.g.stream[x.g.nextId + i] == due[i]
  }

  lemma {:induction false} MovedAre(q: Queue, due: seq<Job>)
    ensures AreMoved(q, due, Scripts.Schedule(q, due))
    decreases |due|
  {
    if due != [] {
      var q1, n := Scripts.MoveOne(q, due[0]), q.g.nextId;
      MovedAre(q1, due[1..]);
      var y := Scripts.Schedule(q, due);
      assert forall m :: m in due <==> m == due[0] || m in due[1..];
      forall i | 0 <= i < |due| ensures n + i in y.g.stream && y.g.stream[n + i] == due[i] {
        if i > 0 {
          assert due[i] == due[1..][i - 1] && n + i == q1.g.nextId + (i - 1);
        }
      }
    }
  }

  /** The scheduler moves what is due and has waited longest, oldest first, `batch` of them or all that is due. */
  lemma ScheduleMovesDue(s: Settings, x: System, a: Action, y: System)
    requires Next(s, x, a, y) && a.DoSchedule?
    ensures AreMoved(x.q, a.due, y.q) && |a.due| <= s.batch
    ensures forall m :: m in a.due ==> m in x.q.delayed && x.q.delayed[m] <= a.now
    ensures |a.due| < s.batch ==> forall m :: m in y.q.delayed ==> a.now < y.q.delayed[m]
  {
    MovedAre(x.q, a.due);
  }

  // ---------------------------------------------------------------- reclaim

  /** Who is a suspect: entries delivered often, and with a low limit those at the limit; none beyond it. */
  lemma SuspectIff(s: Settings, deliveries: nat)
    requires s.Valid()
    ensures s.IsSuspect(deliveries) <==> deliveries <= s.maxDeliveries && (s.suspectDeliveries <= deliveries || deliveries == s.maxDeliveries)
  {
  }

  /** A reclaim hands out every claimed entry but the suspects for whom there is no slot left, which stay
      claimable; and it leaves every other lease alone. */
  lemma ReclaimHandsOutIff(s: Settings, x: System, a: Action, y: System, e: EntryId)
    requires GroupOk(x.q.g) && Next(s, x, a, y) && a.DoReclaim? && e in x.q.g.pel
    ensures Rising(a.ids) && (forall i :: i in a.ids ==> i in x.q.g.pel) && e in y.q.g.pel
    ensures var n := x.q.g.pel[e].deliveries;
            y.q.g.pel[e] == (if HandsOut(s, x.q.g.pel, a.ids, a.slots, e) then Lease(a.w, a.now, n + 1)
                             else if e in a.ids then Lease(a.w, a.now - s.lease, n) else x.q.g.pel[e])
    ensures HandsOut(s, x.q.g.pel, a.ids, a.slots, e) ==> (a.w, e) in y.holders
    ensures y.q.g.stream == x.q.g.stream && y.q.g.pel.Keys == x.q.g.pel.Keys && y.q.g.consumers == x.q.g.consumers[a.w := a.now]
  {
    assert a.gone == {} && x.q.g.pel - a.gone == x.q.g.pel;
    var p := Scripts.Pass(x.q.g.pel, a.slots, []);
    assert Undecided(p, a.ids);
    KeptIff(s, p, a.w, a.ids, a.now, e);
    ClaimAllEffect(s, p, a.w, a.ids, a.now, e);
  }
}
