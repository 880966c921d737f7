/** The reclaim histogram: `reclaims[k]` is the number of entries ever claimed up to count `k`. */
module ReclaimAccounting {
  import opened QueueTypes
  import opened Scripts
  import opened Protocol
  import opened Invariants
  import opened Reachable
  import opened Guarantees
  import opened Leases
  import opened Passes
  import opened Behaviors
  import opened Sets

  function Times(h: map<nat, nat>, k: nat): nat {
    if k in h then h[k] else 0
  }

  /** The entries whose delivery count ever reached `k`. */
  function AtLeast(reach: map<EntryId, nat>, k: nat): set<EntryId> {
    set e | e in reach && k <= reach[e]
  }

  ghost predicate HistogramOk(h: map<nat, nat>, reach: map<EntryId, nat>) {
    && (forall k :: k in h ==> 2 <= k)
    && (forall k: nat :: 2 <= k ==> Times(h, k) == |AtLeast(reach, k)|)
  }

  ghost predicate ReachOk(g: Group, reach: map<EntryId, nat>) {
    && (forall e :: e in reach ==> e < g.delivered)
    && (forall e :: e in g.pel ==> e in reach && reach[e] == g.pel[e].deliveries)
  }

  /** A DLQ entry names the stream entry it came from, with the count that entry died at. */
  ghost predicate SourcesOk(g: Group, dlq: map<EntryId, DeadJob>, reach: map<EntryId, nat>) {
    && (forall d :: d in dlq ==> dlq[d].source in reach && reach[dlq[d].source] == dlq[d].deliveries)
    && (forall d :: d in dlq ==> dlq[d].source !in g.pel)
    && (forall d, d' :: d in dlq && d' in dlq && dlq[d].source == dlq[d'].source ==> d == d')
  }

  ghost predicate AccountsOk(x: System) {
    HistogramOk(x.q.reclaims, x.reach) && ReachOk(x.q.g, x.reach) && SourcesOk(x.q.g, x.q.v.dlq, x.reach)
  }

  // ---------------------------------------------------------------- reclaim

  lemma {:induction false} KeptDistinct(s: Settings, p: Pass, w: Worker, ids: seq<EntryId>, now: int)
    requires forall e :: e in ids ==> e in p.pel && e !in p.kept
    requires Distinct(ids) && Distinct(p.kept)
    ensures Distinct(ClaimAll(s, p, w, ids, now).kept)
    decreases |ids|
  {
    if ids != [] {
      assert ids[0] in ids;
      var p1 := ClaimOne(s, p, w, ids[0], now);
      if PutBack(s, p, ids[0]) {} else {}
      KeptDistinct(s, p1, w, ids[1..], now);
    }
  }

  function Hits(pel: map<EntryId, Lease>, kept: seq<EntryId>, k: nat): set<EntryId>
    requires forall e :: e in kept ==> e in pel
  {
    set e | e in kept && pel[e].deliveries == k
  }

  lemma {:induction false} BumpAllCount(h: map<nat, nat>, pel: map<EntryId, Lease>, kept: seq<EntryId>, k: nat)
    requires (forall e :: e in kept ==> e in pel) && Distinct(kept)
    ensures Times(BumpAll(h, pel, kept), k) == Times(h, k) + |Hits(pel, kept, k)|
    decreases |kept|
  {
    if kept == [] {
      assert Hits(pel, kept, k) == {};
    } else {
      var e, rest := kept[0], kept[1..];
      assert e in kept;
      BumpAllCount(Bump(h, pel[e].deliveries), pel, rest, k);
      assert e !in rest;
      assert forall x :: x in kept <==> x == e || x in rest;
      if pel[e].deliveries == k {
        assert Hits(pel, kept, k) == Hits(pel, rest, k) + {e};
      } else {
        assert Hits(pel, kept, k) == Hits(pel, rest, k);
      }
    }
  }

  lemma {:induction false} BumpAllKeys(h: map<nat, nat>, pel: map<EntryId, Lease>, kept: seq<EntryId>)
    requires forall e :: e in kept ==> e in pel && 2 <= pel[e].deliveries
    requires forall k :: k in h ==> 2 <= k
    ensures forall k :: k in BumpAll(h, pel, kept) ==> 2 <= k
    decreases |kept|
  {
    if kept != [] {
      assert kept[0] in kept;
      BumpAllKeys(Bump(h, pel[kept[0]].deliveries), pel, kept[1..]);
    }
  }

  lemma PassDeliveries(s: Settings, g: Group, w: Worker, count: nat, ids: seq<EntryId>, slots: nat, now: int)
    requires IsClaimList(s, g, now, count, ids, {})
    ensures var p := ReclaimPass(s, g, w, ids, {}, slots, now);
            && p.pel.Keys == g.pel.Keys && (forall e :: e in p.kept ==> e in p.pel) && Distinct(p.kept)
            && forall e :: e in p.pel ==> p.pel[e].deliveries == g.pel[e].deliveries + if e in p.kept then 1 else 0
  {
    assert g.pel - {} == g.pel;
    var p0 := Pass(g.pel, slots, []);
    var p := ClaimAll(s, p0, w, ids, now);
    KeptWereClaimed(s, p0, w, ids, now);
    KeptDistinct(s, p0, w, ids, now);
    forall e | e in p.pel
      ensures p.pel[e].deliveries == g.pel[e].deliveries + if e in p.kept then 1 else 0
    {
      ClaimAllEffect(s, p0, w, ids, now, e);
    }
  }

  predicate Raised(reach: map<EntryId, nat>, after: map<EntryId, nat>, kept: seq<EntryId>) {
    after.Keys == reach.Keys && forall e :: e in reach ==> after[e] == reach[e] + if e in kept then 1 else 0
  }

  lemma PassRaises(g: Group, reach: map<EntryId, nat>, pel: map<EntryId, Lease>, kept: seq<EntryId>)
    requires ReachOk(g, reach) && pel.Keys == g.pel.Keys && forall e :: e in kept ==> e in pel
    requires forall e :: e in pel ==> pel[e].deliveries == g.pel[e].deliveries + if e in kept then 1 else 0
    ensures Raised(reach, reach + Deliveries(pel), kept)
    ensures forall e :: e in kept ==> e in reach && reach[e] + 1 == pel[e].deliveries
  {
  }

  lemma HitsAreNew(reach: map<EntryId, nat>, after: map<EntryId, nat>, pel: map<EntryId, Lease>, kept: seq<EntryId>, k: nat)
    requires Raised(reach, after, kept)
    requires forall e :: e in kept ==> e in pel && e in reach && reach[e] + 1 == pel[e].deliveries
    ensures AtLeast(after, k) == AtLeast(reach, k) + Hits(pel, kept, k) && AtLeast(reach, k) !! Hits(pel, kept, k)
  {
  }

  /** Each kept entry reached one count more than before. */
  lemma PassCounts(g: Group, reach: map<EntryId, nat>, pel: map<EntryId, Lease>, kept: seq<EntryId>, k: nat)
    requires ReachOk(g, reach) && pel.Keys == g.pel.Keys && forall e :: e in kept ==> e in pel
    requires forall e :: e in pel ==> pel[e].deliveries == g.pel[e].deliveries + if e in kept then 1 else 0
    ensures |AtLeast(reach + Deliveries(pel), k)| == |AtLeast(reach, k)| + |Hits(pel, kept, k)|
  {
    PassRaises(g, reach, pel, kept);
    HitsAreNew(reach, reach + Deliveries(pel), pel, kept, k);
  }

  lemma ReclaimAccounts(s: Settings, x: System, a: Action, y: System)
    requires GroupOk(x.q.g) && AccountsOk(x) && Next(s, x, a, y) && a.DoReclaim?
    ensures AccountsOk(y)
  {
    assert a.gone == {};
    var g, p := x.q.g, ReclaimPass(s, x.q.g, a.w, a.ids, {}, a.slots, a.now);
    PassDeliveries(s, g, a.w, a.count, a.ids, a.slots, a.now);
    BumpAllKeys(x.q.reclaims, p.pel, p.kept);
    forall k: nat | 2 <= k ensures Times(y.q.reclaims, k) == |AtLeast(y.reach, k)| {
      PassCounts(g, x.reach, p.pel, p.kept, k);
      BumpAllCount(x.q.reclaims, p.pel, p.kept, k);
    }
  }

  // ---------------------------------------------------------------- the other steps

  /** `h` is `g` after some fetches: new entries start at delivery 1. */
  ghost predicate Fetches(g: Group, h: Group) {
    && g.delivered <= h.delivered
    && (forall e: EntryId :: e < g.delivered ==> (e in h.pel <==> e in g.pel) && (e in g.pel ==> h.pel[e] == g.pel[e]))
    && (forall e: EntryId :: g.delivered <= e && e in h.pel ==> e < h.delivered && h.pel[e].deliveries == 1)
  }

  lemma {:induction false} FetchAllFetches(g: Group, w: Worker, count: nat, now: int)
    requires g.delivered <= g.nextId && forall e :: e in g.pel ==> e < g.delivered
    ensures Fetches(g, FetchAll(g, w, count, now))
    decreases count
  {
    if count > 0 {
      if NextFrom(g.stream, g.delivered, g.nextId) == g.nextId {} else {}
      FetchAllFetches(FetchOne(g, w, now), w, count - 1, now);
    }
  }

  lemma FetchesCount(g: Group, h: Group, reach: map<EntryId, nat>, hist: map<nat, nat>, dlq: map<EntryId, DeadJob>)
    requires Fetches(g, h) && HistogramOk(hist, reach) && ReachOk(g, reach) && SourcesOk(g, dlq, reach)
    ensures var after := reach + Deliveries(h.pel);
            HistogramOk(hist, after) && ReachOk(h, after) && SourcesOk(h, dlq, after)
  {
    var after := reach + Deliveries(h.pel);
    forall k: nat | 2 <= k ensures AtLeast(after, k) == AtLeast(reach, k) {
    }
  }

  lemma FetchAccounts(s: Settings, x: System, a: Action, y: System)
    requires GroupOk(x.q.g) && AccountsOk(x) && Next(s, x, a, y) && a.DoFetch?
    ensures AccountsOk(y)
  {
    var g := Register(x.q.g, a.w, a.now);
    FetchAllFetches(g, a.w, a.count, a.now);
    FetchesCount(x.q.g, y.q.g, x.reach, x.q.reclaims, x.q.v.dlq);
  }

  lemma SameReach(g: Group, reach: map<EntryId, nat>, pel: map<EntryId, Lease>)
    requires ReachOk(g, reach)
    requires forall e :: e in pel ==> e in g.pel && pel[e].deliveries == g.pel[e].deliveries
    ensures reach + Deliveries(pel) == reach
  {
  }

  /** A DLQ move adds one entry whose source leaves the PEL in the same step. */
  lemma BuryAccounts(g: Group, v: Verdicts, reach: map<EntryId, nat>, d: DeadJob)
    requires VerdictsOk(v) && ReachOk(g, reach) && SourcesOk(g, v.dlq, reach)
    requires d.source in g.pel && d.deliveries == g.pel[d.source].deliveries
    ensures SourcesOk(Exit(g, d.source), Bury(v, d).dlq, reach)
  {
    assert v.nextDead !in v.dlq;
  }

  lemma DeadAccounts(s: Settings, x: System, a: Action, y: System)
    requires VerdictsOk(x.q.v) && AccountsOk(x) && Next(s, x, a, y) && a.DoDead?
    ensures AccountsOk(y)
  {
    match DeadOutcome(x.q, a.w, a.e, x.written[a.e].id) {
      case LeaseLost => SameReach(x.q.g, x.reach, x.q.g.pel);
      case TerminalState => SameReach(x.q.g, x.reach, x.q.g.pel - {a.e});
      case EntryMissing =>
      case Ok =>
        SameReach(x.q.g, x.reach, x.q.g.pel - {a.e});
        BuryAccounts(x.q.g, x.q.v, x.reach, DlqEntry(x.q.g, a.w, a.e, x.written[a.e].id, a.reason, a.error, a.attempts, a.now));
    }
  }

  lemma CommitAccountsToo(s: Settings, x: System, a: Action, y: System)
    requires AccountsOk(x) && Next(s, x, a, y) && a.DoCommit?
    ensures AccountsOk(y)
  {
    SameReach(x.q.g, x.reach, x.q.g.pel - {a.e});
    if x.q.v.HasSucceeded(x.written[a.e].id) {} else if x.q.v.IsDead(x.written[a.e].id) {} else {}
  }

  lemma RetryAccountsToo(s: Settings, x: System, a: Action, y: System)
    requires AccountsOk(x) && Next(s, x, a, y) && a.DoRetry?
    ensures AccountsOk(y)
  {
    match RetryOutcome(x.q, a.w, a.e, x.written[a.e].id) {
      case LeaseLost => SameReach(x.q.g, x.reach, x.q.g.pel);
      case TerminalState => SameReach(x.q.g, x.reach, x.q.g.pel - {a.e});
      case EntryMissing => SameReach(x.q.g, x.reach, x.q.g.pel);
      case Ok => SameReach(x.q.g, x.reach, x.q.g.pel - {a.e});
    }
  }

  /** What the histogram depends on is untouched: PEL counts, and DLQ entries only go. */
  predicate Undisturbed(x: Queue, y: Queue) {
    && y.reclaims == x.reclaims && y.g.delivered == x.g.delivered && Deliveries(y.g.pel) == Deliveries(x.g.pel)
    && y.v.dlq.Keys <= x.v.dlq.Keys && forall d :: d in y.v.dlq ==> y.v.dlq[d] == x.v.dlq[d]
  }

  lemma UndisturbedFrame(s: Settings, x: System, a: Action, y: System)
    requires Next(s, x, a, y) && !a.DoFetch? && !a.DoReclaim? && !a.DoCommit? && !a.DoRetry? && !a.DoDead?
    ensures Undisturbed(x.q, y.q) && y.reach == x.reach + Deliveries(y.q.g.pel)
  {
    match a
    case DoEnqueue(job, key, _) => if Admit(s, x.q, job, key).Added? {} else if Admit(s, x.q, job, key).Refused? {} else {}
    case DoHeartbeat(w, e, _) => if Owns(x.q.g, w, e) {} else {}
    case DoEffect(_, e) => if s.KeyOf(x.written[e].jobType, x.written[e].id) in x.q.ledger.marks {} else {}
    case DoSchedule(_, due, _) => ScheduleFrame(x.q, due);
    case DoRequeue(j) => if RequeueOutcomeOf(x.q.v, j).Requeued? {} else {}
    case _ =>
  }

  lemma UndisturbedAccounts(x: System, y: System)
    requires AccountsOk(x) && Undisturbed(x.q, y.q) && y.reach == x.reach + Deliveries(y.q.g.pel)
    ensures AccountsOk(y)
  {
    assert y.reach == x.reach;
    assert forall e :: e in y.q.g.pel <==> e in Deliveries(y.q.g.pel);
    assert forall e :: e in x.q.g.pel <==> e in Deliveries(x.q.g.pel);
  }

  lemma AccountsStep(s: Settings, x: System, a: Action, y: System)
    requires GroupOk(x.q.g) && VerdictsOk(x.q.v) && AccountsOk(x) && Next(s, x, a, y)
    ensures AccountsOk(y)
  {
    match a
    case DoFetch(_, _, _) => FetchAccounts(s, x, a, y);
    case DoReclaim(_, _, _, _, _, _) => ReclaimAccounts(s, x, a, y);
    case DoCommit(_, _, _, _) => CommitAccountsToo(s, x, a, y);
    case DoRetry(_, _, _, _, _) => RetryAccountsToo(s, x, a, y);
    case DoDead(_, _, _, _, _, _, _) => DeadAccounts(s, x, a, y);
    case _ =>
      UndisturbedFrame(s, x, a, y);
      UndisturbedAccounts(x, y);
  }

  // ---------------------------------------------------------------- over whole runs

  ghost function AccountsOf(): System -> bool {
    (x: System) => AccountsOk(x)
  }

  lemma AccountsInductive(s: Settings)
    ensures forall x, a, y :: InvOf(s)(x) && AccountsOf()(x) && NextOf(s)(x, a, y) ==> AccountsOf()(y)
  {
    forall x, a, y | InvOf(s)(x) && AccountsOf()(x) && NextOf(s)(x, a, y) ensures AccountsOf()(y) {
      AccountsStep(s, x, a, y);
    }
  }

  lemma AccountsAtFirst(s: Settings, states: seq<System>, acts: seq<Action>)
    requires IsRun(s, states, acts)
    ensures AccountsOf()(states[0])
  {
    assert IsInit(states[0]);
    forall k: nat ensures AtLeast(states[0].reach, k) == {} {
    }
  }

  /** In every state of every run, `reclaims[k]` is the number of entries that were ever claimed
      up to delivery count `k`, and each DLQ entry records how far its own entry got. */
  lemma ReclaimsAreCounted(s: Settings, states: seq<System>, acts: seq<Action>, i: nat)
    requires IsRun(s, states, acts) && i < |states|
    ensures AccountsOk(states[i])
  {
    EverywhereInvOf(s, states, acts, 0, i);
    AccountsAtFirst(s, states, acts);
    AccountsInductive(s);
    KeepsGiven(NextOf(s), InvOf(s), AccountsOf(), states, acts, 0, i);
    assert AccountsOf()(states[i]);
  }
}
