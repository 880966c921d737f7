/** The queue's keys as Redis holds them, and the scripts that change them in place, command by
    command. Each method is proved to do exactly what its function in `Scripts` says. */
module RedisQueue {
  import opened QueueTypes
  import Scripts

  class Store {
    var g: Group
    var delayed: map<Job, int>
    var v: Verdicts
    var ledger: Ledger
    var door: Door
    var stats: Stats
    var reclaims: map<nat, nat>

    ghost function View(): Queue
      reads this
    {
      Queue(g, delayed, v, ledger, door, stats, reclaims)
    }

    /** No key exists yet. */
    constructor ()
      ensures g == Group(map[], 0, 0, map[], map[]) && delayed == map[] && v == Verdicts(map[], [], map[], 0)
      ensures ledger == Ledger({}, []) && door == Door(map[], false) && reclaims == map[]
      ensures stats == Stats(0, 0, 0, 0, 0, 0, 0, 0, 0, 0, 0, 0, 0, 0, 0, 0)
    {
      g, delayed, v := Group(map[], 0, 0, map[], map[]), map[], Verdicts(map[], [], map[], 0);
      ledger, door, reclaims := Ledger({}, []), Door(map[], false), map[];
      stats := Stats(0, 0, 0, 0, 0, 0, 0, 0, 0, 0, 0, 0, 0, 0, 0, 0);
    }

    // ---------------------------------------------------------------- Redis commands

    method XAdd(job: Job)
      modifies this`g
      ensures g == Scripts.Append(old(g), job)
    {
      g := g.(stream := g.stream[g.nextId := job], nextId := g.nextId + 1);
    }

    method XAck(e: EntryId)
      modifies this`g
      ensures g == old(g).(pel := old(g).pel - {e})
    {
      g := g.(pel := g.pel - {e});
    }

    method XDel(e: EntryId)
      modifies this`g
      ensures g == old(g).(stream := old(g).stream - {e})
    {
      g := g.(stream := g.stream - {e});
    }

    // ---------------------------------------------------------------- enqueue.lua

    method Enqueue(s: Settings, job: Job, key: Option<IdemKey>, countAs: CountAs) returns (reply: Admission)
      modifies this
      ensures reply == Scripts.Admit(s, old(View()), job, key)
      ensures View() == Scripts.Enqueue(s, old(View()), job, key, countAs)
    {
      if key.Some? && key.value in door.idem {
        return DuplicateOf(door.idem[key.value]);
      }
      var depth := |g.stream| + |delayed|;
      if door.full && depth < s.low {
        door := door.(full := false);
      } else if !door.full && depth >= s.high {
        door := door.(full := true);
      }
      if door.full {
        match countAs {
          case CountRejected => stats := stats.(rejected := stats.rejected + 1);
          case CountBlocked => stats := stats.(blocked := stats.blocked + 1);
          case CountNone =>
        }
        return Refused(depth);
      }
      if key.Some? {
        door := door.(idem := door.idem[key.value := job.id]);
      }
      XAdd(job);
      return Added(job.id, depth + 1);
    }

    // ---------------------------------------------------------------- heartbeat.lua, commit.lua

    method Heartbeat(w: Worker, e: EntryId, now: int) returns (outcome: Outcome)
      modifies this
      ensures outcome == Scripts.HeartbeatOutcome(old(View()), w, e)
      ensures View() == Scripts.Heartbeat(old(View()), w, e, now)
    {
      if e !in g.pel || g.pel[e].owner != w {
        stats := stats.(leaseLost := stats.leaseLost + 1);
        return LeaseLost;
      }
      g := g.(pel := g.pel[e := g.pel[e].(since := now)], consumers := g.consumers[w := now]);
      stats := stats.(heartbeats := stats.heartbeats + 1);
      return Ok;
    }

    method Commit(w: Worker, e: EntryId, j: JobId, result: string, now: int) returns (outcome: CommitOutcome)
      modifies this
      ensures outcome == Scripts.CommitOutcomeOf(old(View()).v, j)
      ensures View() == Scripts.Commit(old(View()), w, e, j, result, now)
    {
      if j in v.done && v.done[j].Succeeded? {
        XAck(e);
        XDel(e);
        stats := stats.(duplicatesSuppressed := stats.duplicatesSuppressed + 1);
        return Duplicate;
      }
      outcome := Committed;
      if j in v.done {
        // The DEAD record goes with its DLQ entry; the HSET below replaces it.
        v := v.(dlq := v.dlq - {v.done[j].entry});
        stats := stats.(lateSuccesses := stats.lateSuccesses + 1);
        outcome := LateSuccess;
      }
      v := v.(done := v.done[j := Succeeded(result, w, now)]);
      v := v.(results := v.results + [j]);
      XAck(e);
      XDel(e);
      stats := stats.(processed := stats.processed + 1);
    }

    // ---------------------------------------------------------------- retry.lua, dead.lua

    method Retry(w: Worker, e: EntryId, j: JobId, attempt: nat, delay: int, timedOut: bool, now: int)
      returns (outcome: Outcome)
      modifies this
      ensures outcome == Scripts.RetryOutcome(old(View()), w, e, j)
      ensures View() == Scripts.Retry(old(View()), w, e, j, attempt, delay, timedOut, now)
    {
      if e !in g.pel || g.pel[e].owner != w {
        stats := stats.(leaseLost := stats.leaseLost + 1);
        return LeaseLost;
      }
      if j in v.done {
        XAck(e);
        XDel(e);
        stats := stats.(duplicatesSuppressed := stats.duplicatesSuppressed + 1);
        return TerminalState;
      }
      if e !in g.stream {
        return EntryMissing;
      }
      delayed := delayed[g.stream[e].(attempt := attempt) := now + delay];
      XAck(e);
      XDel(e);
      stats := stats.(retried := stats.retried + 1);
      if timedOut {
        stats := stats.(timeouts := stats.timeouts + 1);
      }
      return Ok;
    }

    method DeadLetter(w: Worker, e: EntryId, j: JobId, reason: DeadReason, error: string, attempts: nat,
                      timedOut: bool, now: int) returns (outcome: Outcome)
      modifies this
      ensures outcome == Scripts.DeadOutcome(old(View()), w, e, j)
      ensures View() == Scripts.DeadLetter(old(View()), w, e, j, reason, error, attempts, timedOut, now)
    {
      if e !in g.pel || g.pel[e].owner != w {
        stats := stats.(leaseLost := stats.leaseLost + 1);
        return LeaseLost;
      }
      var deliveries := g.pel[e].deliveries;
      if j in v.done {
        XAck(e);
        XDel(e);
        stats := stats.(duplicatesSuppressed := stats.duplicatesSuppressed + 1);
        return TerminalState;
      }
      var fields := if e in g.stream then Some(g.stream[e]) else None;
      var d := v.nextDead;
      v := v.(dlq := v.dlq[d := DeadJob(j, fields, reason, error, attempts, deliveries, w, now, e)], nextDead := d + 1);
      v := v.(done := v.done[j := Dead(d, reason, error, w, now)]);
      XAck(e);
      XDel(e);
      stats := stats.(dead := stats.dead + 1);
      if timedOut {
        stats := stats.(timeouts := stats.timeouts + 1);
      }
      return Ok;
    }

    // ---------------------------------------------------------------- requeue.lua, ledger.lua

    method Requeue(j: JobId) returns (outcome: RequeueOutcome)
      modifies this
      ensures outcome == Scripts.RequeueOutcomeOf(old(View()).v, j)
      ensures View() == Scripts.Requeue(old(View()), j)
    {
      if j !in v.done || !v.done[j].Dead? {
        return NotDead;
      }
      var d := v.done[j].entry;
      if d !in v.dlq {
        return NotDead;
      }
      if v.dlq[d].fields.None? {
        return NothingToRequeue;
      }
      XAdd(v.dlq[d].fields.value.(attempt := 0));
      v := v.(dlq := v.dlq - {d});
      v := v.(done := v.done - {j});
      stats := stats.(requeued := stats.requeued + 1);
      return Requeued;
    }

    method Apply(key: EffectKey) returns (applied: bool)
      modifies this
      ensures applied == (key !in old(ledger).marks)
      ensures View() == Scripts.Apply(old(View()), key)
    {
      if key in ledger.marks {
        stats := stats.(effectsSuppressed := stats.effectsSuppressed + 1);
        return false;
      }
      ledger := ledger.(marks := ledger.marks + {key});
      ledger := ledger.(log := ledger.log + [key]);
      stats := stats.(effectsApplied := stats.effectsApplied + 1);
      return true;
    }

    // ---------------------------------------------------------------- schedule.lua

    /** ZREM then XADD for each due member, then one count for all of them. */
    method Schedule(due: seq<Job>)
      modifies this
      ensures View() == Scripts.Schedule(old(View()), due)
    {
      ghost var q := View();
      for i := 0 to |due|
        invariant Scripts.Schedule(q, due[i..]) == Scripts.Schedule(old(View()), due)
        invariant q == View().(stats := stats.(scheduled := stats.scheduled + i))
      {
        assert due[i..][1..] == due[i + 1..];
        q := Scripts.MoveOne(q, due[i]);
        delayed := delayed - {due[i]};
        XAdd(due[i]);
      }
      stats := stats.(scheduled := stats.scheduled + |due|);
    }

    // ---------------------------------------------------------------- reclaim.lua

    /** XAUTOCLAIM's effect: `ids` are the caller's, one delivery more; `gone` are dropped. */
    method XAutoClaim(w: Worker, ids: seq<EntryId>, gone: set<EntryId>, now: int)
      modifies this`g
      ensures g == Scripts.Register(old(g), w, now).(pel := ClaimedAll(old(g).pel - gone, w, ids, now))
    {
      g := g.(consumers := g.consumers[w := now], pel := ClaimedAll(g.pel - gone, w, ids, now));
    }

    /** One turn of the script's loop: give the entry back, or keep and count it. */
    method SiftEntry(s: Settings, w: Worker, e: EntryId, left: nat, now: int) returns (keep: bool, slots: nat)
      requires e in g.pel && 1 <= g.pel[e].deliveries
      modifies this`g, this`reclaims
      ensures var n := old(g).pel[e].deliveries;
              && keep == !(s.IsSuspect(n) && left == 0)
              && slots == (if keep && s.IsSuspect(n) then left - 1 else left)
              && g == old(g).(pel := if keep then old(g).pel else old(g).pel[e := Lease(w, now - s.lease, n - 1)])
              && reclaims == if keep then Scripts.Bump(old(reclaims), n) else old(reclaims)
    {
      var deliveries := g.pel[e].deliveries;
      var suspect := s.SuspectThreshold() <= deliveries <= s.maxDeliveries;
      if suspect && left == 0 {
        g := g.(pel := g.pel[e := Lease(w, now - s.lease, deliveries - 1)]);
        return false, left;
      }
      slots := if suspect then left - 1 else left;
      reclaims := reclaims[deliveries := (if deliveries in reclaims then reclaims[deliveries] else 0) + 1];
      return true, slots;
    }

    /** The script's loop: give back every suspect beyond the caller's slots, count the rest. */
    method Sift(s: Settings, w: Worker, ids: seq<EntryId>, slots: nat, now: int, ghost before: map<EntryId, Lease>)
      returns (kept: seq<EntryId>)
      requires forall e :: e in ids ==> e in before
      requires forall i, k :: 0 <= i < k < |ids| ==> ids[i] != ids[k]
      requires g.pel == ClaimedAll(before, w, ids, now)
      modifies this`g, this`reclaims
      ensures var p := Scripts.ClaimAll(s, Scripts.Pass(before, slots, []), w, ids, now);
              && g == old(g).(pel := p.pel) && kept == p.kept
              && (forall e :: e in kept ==> e in p.pel)
              && reclaims == Scripts.BumpAll(old(reclaims), p.pel, kept)
    {
      ghost var p := Scripts.Pass(before, slots, []);
      var left := slots;
      kept := [];
      var i := 0;
      while i < |ids|
        invariant i <= |ids| && Remaining(p, ids[i..])
        invariant Scripts.ClaimAll(s, p, w, ids[i..], now) == Scripts.ClaimAll(s, Scripts.Pass(before, slots, []), w, ids, now)
        invariant g == old(g).(pel := ClaimedAll(p.pel, w, ids[i..], now))
        invariant p.slots == left && p.kept == kept
        invariant reclaims == Scripts.BumpAll(old(reclaims), g.pel, kept)
      {
        assert ids[i..][1..] == ids[i + 1..];
        SiftOne(s, p, w, ids[i..], now, old(reclaims));
        p := Scripts.ClaimOne(s, p, w, ids[i], now);
        var keep;
        keep, left := SiftEntry(s, w, ids[i], left, now);
        if keep {
          kept := kept + [ids[i]];
        }
        i := i + 1;
      }
    }

    method Reclaim(s: Settings, w: Worker, ids: seq<EntryId>, gone: set<EntryId>, slots: nat, now: int)
      returns (kept: seq<EntryId>)
      requires forall e :: e in ids ==> e in g.pel && e !in gone
      requires forall i, k :: 0 <= i < k < |ids| ==> ids[i] != ids[k]
      modifies this
      ensures View() == Scripts.Reclaim(s, old(View()), w, ids, gone, slots, now)
      ensures kept == Scripts.ReclaimPass(s, old(g), w, ids, gone, slots, now).kept
    {
      XAutoClaim(w, ids, gone, now);
      kept := Sift(s, w, ids, slots, now, old(g).pel - gone);
      if |kept| > 0 {
        stats := stats.(reclaimed := stats.reclaimed + |kept|);
      }
    }

    // ---------------------------------------------------------------- prune_consumers.lua

    /** XGROUP DELCONSUMER: the consumer goes, and with it whatever it has pending. */
    method DelConsumer(c: Worker)
      modifies this`g
      ensures g == old(g).(consumers := old(g).consumers - {c},
                           pel := map e | e in old(g).pel && old(g).pel[e].owner != c :: old(g).pel[e])
    {
      g := g.(consumers := g.consumers - {c}, pel := map e | e in g.pel && g.pel[e].owner != c :: g.pel[e]);
    }

    /** XPENDING filtered by consumer: does `c` own nothing? */
    method OwnsNothing(c: Worker) returns (nothing: bool)
      ensures nothing <==> forall e :: e in g.pel ==> g.pel[e].owner != c
    {
      var owned := set e | e in g.pel && g.pel[e].owner == c;
      assert forall e :: e in g.pel && g.pel[e].owner == c ==> e in owned;
      nothing := owned == {};
    }

    /** One turn of the script's loop. */
    method DeleteIfIdle(s: Settings, w: Worker, c: Worker, now: int) returns (gone: bool)
      requires c in g.consumers
      modifies this`g
      ensures gone <==> c in Scripts.Prunable(s, old(g), w, now)
      ensures g == if gone then old(g).(consumers := old(g).consumers - {c}) else old(g)
    {
      if c == w || now - g.consumers[c] < s.pruneIdle {
        return false;
      }
      gone := OwnsNothing(c);
      if gone {
        assert (map e | e in g.pel && g.pel[e].owner != c :: g.pel[e]) == g.pel;
        DelConsumer(c);
      }
    }

    /** The script's loop over XINFO CONSUMERS. */
    method DeleteIdle(s: Settings, w: Worker, now: int) returns (deleted: set<Worker>)
      modifies this`g
      ensures deleted == Scripts.Prunable(s, old(g), w, now)
      ensures g == old(g).(consumers := old(g).consumers - deleted)
    {
      deleted := {};
      var rest := g.consumers.Keys;
      ghost var all := Scripts.Prunable(s, g, w, now);
      while rest != {}
        invariant rest <= g.consumers.Keys && rest !! deleted && all - rest == deleted
        invariant g == old(g).(consumers := old(g).consumers - deleted)
        decreases |rest|
      {
        var c :| c in rest;
        SamePrunable(s, old(g), deleted, w, c, now);
        OneLess(all, rest, old(g).consumers, deleted, c);
        rest := rest - {c};
        var gone := DeleteIfIdle(s, w, c, now);
        if gone {
          deleted := deleted + {c};
        }
      }
    }

    method Prune(s: Settings, w: Worker, now: int) returns (deleted: set<Worker>)
      modifies this
      ensures deleted == Scripts.Prunable(s, old(g), w, now)
      ensures View() == Scripts.Prune(s, old(View()), w, now)
    {
      deleted := DeleteIdle(s, w, now);
      if |deleted| > 0 {
        stats := stats.(consumersPruned := stats.consumersPruned + |deleted|);
      }
    }
  }

  lemma OneLess(all: set<Worker>, rest: set<Worker>, consumers: map<Worker, int>, deleted: set<Worker>, c: Worker)
    requires c in rest && all - rest == deleted
    ensures all - (rest - {c}) == if c in all then deleted + {c} else deleted
    ensures consumers - deleted - {c} == consumers - (deleted + {c})
  {
  }

  /** Deleting some consumers changes nothing for another. */
  lemma SamePrunable(s: Settings, g: Group, deleted: set<Worker>, w: Worker, c: Worker, now: int)
    requires c in g.consumers && c !in deleted
    ensures c in Scripts.Prunable(s, g.(consumers := g.consumers - deleted), w, now) <==> c in Scripts.Prunable(s, g, w, now)
  {
  }

  /** A PEL after XAUTOCLAIM took `ids` over, all at once. */
  function ClaimedAll(pel: map<EntryId, Lease>, w: Worker, ids: seq<EntryId>, now: int): map<EntryId, Lease> {
    map e | e in pel :: if e in ids then Lease(w, now, pel[e].deliveries + 1) else pel[e]
  }

  /** The histogram counts a kept entry whichever end it is added at. */
  lemma {:induction false} BumpLast(h: map<nat, nat>, pel: map<EntryId, Lease>, kept: seq<EntryId>, e: EntryId)
    requires e in pel && forall k :: k in kept ==> k in pel
    ensures Scripts.BumpAll(h, pel, kept + [e]) == Scripts.Bump(Scripts.BumpAll(h, pel, kept), pel[e].deliveries)
    decreases |kept|
  {
    if kept == [] {
      assert kept + [e] == [e] && [e][1..] == [];
    } else {
      assert kept[0] in kept && (kept + [e])[1..] == kept[1..] + [e];
      BumpLast(Scripts.Bump(h, pel[kept[0]].deliveries), pel, kept[1..], e);
    }
  }

  /** And it does not depend on the entries that were not kept. */
  lemma {:induction false} BumpFrame(r: map<nat, nat>, h: map<nat, nat>, pel: map<EntryId, Lease>, kept: seq<EntryId>, e: EntryId, lease: Lease)
    requires e in pel && e !in kept && (forall k :: k in kept ==> k in pel) && r == Scripts.BumpAll(h, pel, kept)
    ensures r == Scripts.BumpAll(h, pel[e := lease], kept)
    decreases |kept|
  {
    if kept != [] {
      assert kept[0] in kept;
      BumpFrame(r, Scripts.Bump(h, pel[kept[0]].deliveries), pel, kept[1..], e, lease);
    }
  }

  /** What is still to be sifted: distinct entries, none of them decided yet. */
  ghost predicate Remaining(p: Scripts.Pass, ids: seq<EntryId>) {
    && (forall e :: e in ids ==> e in p.pel)
    && (forall e :: e in p.kept ==> e in p.pel && e !in ids)
    && (forall i, k :: 0 <= i < k < |ids| ==> ids[i] != ids[k])
  }

  /** One turn of the loop: what it does to the claimed PEL and to the histogram is what deciding
      the next entry on its own does. */
  lemma SiftOne(s: Settings, p: Scripts.Pass, w: Worker, ids: seq<EntryId>, now: int, h: map<nat, nat>)
    requires ids != [] && Remaining(p, ids)
    ensures ids[0] in p.pel && Remaining(Scripts.ClaimOne(s, p, w, ids[0], now), ids[1..])
    ensures var e, pel, p1 := ids[0], ClaimedAll(p.pel, w, ids, now), Scripts.ClaimOne(s, p, w, ids[0], now);
            var n, h0, pel1 := pel[e].deliveries, Scripts.BumpAll(h, pel, p.kept), ClaimedAll(p1.pel, w, ids[1..], now);
            && n == p.pel[e].deliveries + 1 && (forall k :: k in p1.kept ==> k in pel1)
            && pel1 == (if Scripts.PutBack(s, p, e) then pel[e := Lease(w, now - s.lease, n - 1)] else pel)
            && Scripts.BumpAll(h, pel1, p1.kept) == if Scripts.PutBack(s, p, e) then h0 else Scripts.Bump(h0, n)
  {
    var e, pel, p1 := ids[0], ClaimedAll(p.pel, w, ids, now), Scripts.ClaimOne(s, p, w, ids[0], now);
    assert e in ids && forall k :: k in ids <==> k == e || k in ids[1..];
    if Scripts.PutBack(s, p, e) {
      var lease := Lease(w, now - s.lease, pel[e].deliveries - 1);
      BumpFrame(Scripts.BumpAll(h, pel, p.kept), h, pel, p.kept, e, lease);
      assert ClaimedAll(p1.pel, w, ids[1..], now) == pel[e := lease];
    } else {
      BumpLast(h, pel, p.kept, e);
      assert ClaimedAll(p1.pel, w, ids[1..], now) == pel;
    }
  }
}
