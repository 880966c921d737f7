/** What each Lua script in `src/ftq/scripts/` does to the queue, as a function of the queue. */
module Scripts {
  import opened QueueTypes

  // ---------------------------------------------------------------- the commands they share

  /** XACK then XDEL: every way out of the stream. */
  function Exit(g: Group, e: EntryId): Group {
    g.(stream := g.stream - {e}, pel := g.pel - {e})
  }

  /** XADD to the stream. */
  function Append(g: Group, job: Job): Group {
    g.(stream := g.stream[g.nextId := job], nextId := g.nextId + 1)
  }

  /** XREADGROUP, XAUTOCLAIM and XCLAIM all register their caller and reset its idle time. */
  function Register(g: Group, w: Worker, now: int): Group {
    g.(consumers := g.consumers[w := now])
  }

  predicate Owns(g: Group, w: Worker, e: EntryId) {
    e in g.pel && g.pel[e].owner == w
  }

  predicate Expired(s: Settings, g: Group, e: EntryId, now: int) {
    e in g.pel && now - g.pel[e].since >= s.lease
  }

  function Depth(q: Queue): nat {
    |q.g.stream| + |q.delayed|
  }

  // ---------------------------------------------------------------- enqueue.lua

  function CountRefusal(st: Stats, countAs: CountAs): Stats {
    match countAs
    case CountRejected => st.(rejected := st.rejected + 1)
    case CountBlocked => st.(blocked := st.blocked + 1)
    case CountNone => st
  }

  /** The hysteresis flag as the admission check leaves it. */
  predicate FullAfter(s: Settings, q: Queue) {
    if q.door.full then Depth(q) >= s.low else Depth(q) >= s.high
  }

  function Admit(s: Settings, q: Queue, job: Job, key: Option<IdemKey>): Admission {
    if key.Some? && key.value in q.door.idem then DuplicateOf(q.door.idem[key.value])
    else if FullAfter(s, q) then Refused(Depth(q))
    else Added(job.id, Depth(q) + 1)
  }

  function Enqueue(s: Settings, q: Queue, job: Job, key: Option<IdemKey>, countAs: CountAs): Queue {
    match Admit(s, q, job, key)
    case DuplicateOf(_) => q
    case Refused(_) => q.(door := q.door.(full := true), stats := CountRefusal(q.stats, countAs))
    case Added(_, _) =>
      q.(g := Append(q.g, job),
         door := Door(if key.Some? then q.door.idem[key.value := job.id] else q.door.idem, false))
  }

  // ---------------------------------------------------------------- XREADGROUP '>'

  /** The first entry at or after `from` that is still in the stream, or `limit` if there is none. */
  function NextFrom(stream: map<EntryId, Job>, from: EntryId, limit: EntryId): (e: EntryId)
    requires from <= limit
    ensures from <= e <= limit
    ensures e < limit ==> e in stream
    ensures forall i :: from <= i < e ==> i !in stream
    decreases limit - from
  {
    if from == limit || from in stream then from else NextFrom(stream, from + 1, limit)
  }

  /** Deliver the oldest undelivered entry to `w`, if there is one. */
  function FetchOne(g: Group, w: Worker, now: int): Group
    requires g.delivered <= g.nextId
  {
    var e := NextFrom(g.stream, g.delivered, g.nextId);
    if e == g.nextId then g
    else g.(delivered := e + 1, pel := g.pel[e := Lease(w, now, 1)])
  }

  function FetchAll(g: Group, w: Worker, count: nat, now: int): (r: Group)
    requires g.delivered <= g.nextId
    ensures r.delivered <= r.nextId == g.nextId
    decreases count
  {
    if count == 0 then g else FetchAll(FetchOne(g, w, now), w, count - 1, now)
  }

  function Fetch(q: Queue, w: Worker, count: nat, now: int): Queue
    requires q.g.delivered <= q.g.nextId
  {
    q.(g := FetchAll(Register(q.g, w, now), w, count, now))
  }

  // ---------------------------------------------------------------- heartbeat, retry, dead

  function Refuse(q: Queue): Queue {
    q.(stats := q.stats.(leaseLost := q.stats.leaseLost + 1))
  }

  function Suppress(q: Queue, e: EntryId): Queue {
    q.(g := Exit(q.g, e), stats := q.stats.(duplicatesSuppressed := q.stats.duplicatesSuppressed + 1))
  }

  function HeartbeatOutcome(q: Queue, w: Worker, e: EntryId): Outcome {
    if Owns(q.g, w, e) then Ok else LeaseLost
  }

  function Renew(g: Group, e: EntryId, now: int): Group
    requires e in g.pel
  {
    g.(pel := g.pel[e := g.pel[e].(since := now)])
  }

  function Heartbeat(q: Queue, w: Worker, e: EntryId, now: int): Queue {
    if HeartbeatOutcome(q, w, e) == LeaseLost then Refuse(q)
    else q.(g := Register(Renew(q.g, e, now), w, now), stats := q.stats.(heartbeats := q.stats.heartbeats + 1))
  }

  function TimedOut(st: Stats, timedOut: bool): Stats {
    if timedOut then st.(timeouts := st.timeouts + 1) else st
  }

  function RetryOutcome(q: Queue, w: Worker, e: EntryId, j: JobId): Outcome {
    if !Owns(q.g, w, e) then LeaseLost
    else if j in q.v.done then TerminalState
    else if e !in q.g.stream then EntryMissing
    else Ok
  }

  function Retry(q: Queue, w: Worker, e: EntryId, j: JobId, attempt: nat, delay: int, timedOut: bool, now: int): Queue {
    match RetryOutcome(q, w, e, j)
    case LeaseLost => Refuse(q)
    case TerminalState => Suppress(q, e)
    case EntryMissing => q
    case Ok =>
      q.(g := Exit(q.g, e),
         delayed := q.delayed[q.g.stream[e].(attempt := attempt) := now + delay],
         stats := TimedOut(q.stats.(retried := q.stats.retried + 1), timedOut))
  }

  function DeadOutcome(q: Queue, w: Worker, e: EntryId, j: JobId): Outcome {
    if !Owns(q.g, w, e) then LeaseLost
    else if j in q.v.done then TerminalState
    else Ok
  }

  /** The DLQ entry: the entry's own fields, plus why it died. */
  function DlqEntry(g: Group, w: Worker, e: EntryId, j: JobId, reason: DeadReason, error: string,
                    attempts: nat, now: int): DeadJob
    requires e in g.pel
  {
    DeadJob(j, if e in g.stream then Some(g.stream[e]) else None, reason, error, attempts,
            g.pel[e].deliveries, w, now, e)
  }

  function Bury(v: Verdicts, d: DeadJob): Verdicts {
    v.(dlq := v.dlq[v.nextDead := d], nextDead := v.nextDead + 1,
       done := v.done[d.jobId := Dead(v.nextDead, d.reason, d.error, d.worker, d.at)])
  }

  function DeadLetter(q: Queue, w: Worker, e: EntryId, j: JobId, reason: DeadReason, error: string,
                      attempts: nat, timedOut: bool, now: int): Queue
  {
    match DeadOutcome(q, w, e, j)
    case LeaseLost => Refuse(q)
    case TerminalState => Suppress(q, e)
    case EntryMissing => q
    case Ok =>
      q.(g := Exit(q.g, e), v := Bury(q.v, DlqEntry(q.g, w, e, j, reason, error, attempts, now)),
         stats := TimedOut(q.stats.(dead := q.stats.dead + 1), timedOut))
  }

  // ---------------------------------------------------------------- commit.lua

  function CommitOutcomeOf(v: Verdicts, j: JobId): CommitOutcome {
    if v.HasSucceeded(j) then Duplicate else if v.IsDead(j) then LateSuccess else Committed
  }

  /** The first success: it replaces a DEAD record and takes its entry out of the DLQ. */
  function Succeed(v: Verdicts, j: JobId, t: Terminal): Verdicts {
    v.(dlq := if v.IsDead(j) then v.dlq - {v.done[j].entry} else v.dlq,
       done := v.done[j := t], results := v.results + [j])
  }

  function CountCommit(st: Stats, late: bool): Stats {
    st.(processed := st.processed + 1, lateSuccesses := st.lateSuccesses + if late then 1 else 0)
  }

  function Commit(q: Queue, w: Worker, e: EntryId, j: JobId, result: string, now: int): Queue {
    if q.v.HasSucceeded(j) then Suppress(q, e)
    else q.(g := Exit(q.g, e), v := Succeed(q.v, j, Succeeded(result, w, now)),
            stats := CountCommit(q.stats, q.v.IsDead(j)))
  }

  // ---------------------------------------------------------------- schedule.lua

  /** `due` is an answer of ZRANGE BYSCORE LIMIT: the oldest members scored at most `now`. */
  ghost predicate IsDueRange(delayed: map<Job, int>, now: int, limit: nat, due: seq<Job>) {
    && (forall m :: m in due ==> m in delayed && delayed[m] <= now)
    && (forall i, k :: 0 <= i < k < |due| ==> due[i] != due[k] && delayed[due[i]] <= delayed[due[k]])
    && |due| <= limit
    && (forall m :: m in delayed && m !in due && delayed[m] <= now ==>
                      |due| == limit && forall d :: d in due ==> delayed[d] <= delayed[m])
  }

  function MoveOne(q: Queue, m: Job): Queue {
    q.(g := Append(q.g, m), delayed := q.delayed - {m}, stats := q.stats.(scheduled := q.stats.scheduled + 1))
  }

  /** Each due member leaves the delayed set and becomes a fresh entry, in order. */
  function Schedule(q: Queue, due: seq<Job>): Queue
    decreases |due|
  {
    if due == [] then q else Schedule(MoveOne(q, due[0]), due[1..])
  }

  // ---------------------------------------------------------------- reclaim.lua

  /** A reclaim pass part-way: the PEL, the suspect slots left, and what was kept so far. */
  datatype Pass = Pass(pel: map<EntryId, Lease>, slots: nat, kept: seq<EntryId>)

  predicate PutBack(s: Settings, p: Pass, e: EntryId)
    requires e in p.pel
  {
    s.IsSuspect(p.pel[e].deliveries + 1) && p.slots == 0
  }

  /** One entry's claim. A suspect without a slot is put back: same delivery count and still
      expired, but owned by the caller. */
  function ClaimOne(s: Settings, p: Pass, w: Worker, e: EntryId, now: int): Pass
    requires e in p.pel
  {
    var n := p.pel[e].deliveries + 1;
    if PutBack(s, p, e) then p.(pel := p.pel[e := Lease(w, now - s.lease, n - 1)])
    else Pass(p.pel[e := Lease(w, now, n)], if s.IsSuspect(n) then p.slots - 1 else p.slots, p.kept + [e])
  }

  function ClaimAll(s: Settings, p: Pass, w: Worker, ids: seq<EntryId>, now: int): (r: Pass)
    requires forall e :: e in ids ==> e in p.pel
    ensures r.pel.Keys == p.pel.Keys
    decreases |ids|
  {
    if ids == [] then p else
      var p1 := ClaimOne(s, p, w, ids[0], now);
      assert p1.pel.Keys == p.pel.Keys by { assert ids[0] in ids; }
      ClaimAll(s, p1, w, ids[1..], now)
  }

  function Bump(h: map<nat, nat>, k: nat): map<nat, nat> {
    h[k := (if k in h then h[k] else 0) + 1]
  }

  /** The histogram after a pass kept `kept`, whose delivery counts are now those of `pel`. */
  function BumpAll(h: map<nat, nat>, pel: map<EntryId, Lease>, kept: seq<EntryId>): map<nat, nat>
    requires forall e :: e in kept ==> e in pel
    decreases |kept|
  {
    if kept == [] then h
    else
      assert kept[0] in kept;
      BumpAll(Bump(h, pel[kept[0]].deliveries), pel, kept[1..])
  }

  /** What XAUTOCLAIM may claim (`ids`) and drop as having no stream data (`gone`) in one call. */
  ghost predicate IsClaimList(s: Settings, g: Group, now: int, count: nat, ids: seq<EntryId>, gone: set<EntryId>) {
    && (forall i, k :: 0 <= i < k < |ids| ==> ids[i] < ids[k])
    && (forall e :: e in ids ==> e in g.stream && Expired(s, g, e, now))
    && |ids| <= count
    && (forall e :: e in gone ==> e in g.pel && e !in g.stream)
  }

  function ReclaimPass(s: Settings, g: Group, w: Worker, ids: seq<EntryId>, gone: set<EntryId>, slots: nat, now: int): Pass
    requires forall e :: e in ids ==> e in g.pel && e !in gone
  {
    ClaimAll(s, Pass(g.pel - gone, slots, []), w, ids, now)
  }

  lemma {:induction false} KeptWereClaimed(s: Settings, p: Pass, w: Worker, ids: seq<EntryId>, now: int)
    requires forall e :: e in ids ==> e in p.pel
    ensures forall e :: e in ClaimAll(s, p, w, ids, now).kept ==> e in p.kept || e in ids
    decreases |ids|
  {
    if ids != [] {
      assert ids[0] in ids;
      KeptWereClaimed(s, ClaimOne(s, p, w, ids[0], now), w, ids[1..], now);
    }
  }

  function Reclaim(s: Settings, q: Queue, w: Worker, ids: seq<EntryId>, gone: set<EntryId>, slots: nat, now: int): Queue
    requires forall e :: e in ids ==> e in q.g.pel && e !in gone
  {
    var p := ReclaimPass(s, q.g, w, ids, gone, slots, now);
    KeptWereClaimed(s, Pass(q.g.pel - gone, slots, []), w, ids, now);
    q.(g := Register(q.g, w, now).(pel := p.pel), reclaims := BumpAll(q.reclaims, p.pel, p.kept),
       stats := q.stats.(reclaimed := q.stats.reclaimed + |p.kept|))
  }

  // ---------------------------------------------------------------- prune, requeue, ledger

  function Prunable(s: Settings, g: Group, w: Worker, now: int): set<Worker> {
    set c | c in g.consumers && c != w && now - g.consumers[c] >= s.pruneIdle &&
            forall e :: e in g.pel ==> g.pel[e].owner != c
  }

  function Prune(s: Settings, q: Queue, w: Worker, now: int): Queue {
    var deleted := Prunable(s, q.g, w, now);
    q.(g := q.g.(consumers := q.g.consumers - deleted),
       stats := q.stats.(consumersPruned := q.stats.consumersPruned + |deleted|))
  }

  function RequeueOutcomeOf(v: Verdicts, j: JobId): RequeueOutcome {
    if !v.IsDead(j) || v.done[j].entry !in v.dlq then NotDead
    else if v.dlq[v.done[j].entry].fields.None? then NothingToRequeue
    else Requeued
  }

  function Revived(v: Verdicts, j: JobId): Job
    requires RequeueOutcomeOf(v, j).Requeued?
  {
    v.dlq[v.done[j].entry].fields.value.(attempt := 0)
  }

  function Unbury(v: Verdicts, j: JobId): Verdicts
    requires v.IsDead(j)
  {
    v.(dlq := v.dlq - {v.done[j].entry}, done := v.done - {j})
  }

  function Requeue(q: Queue, j: JobId): Queue {
    if !RequeueOutcomeOf(q.v, j).Requeued? then q
    else q.(g := Append(q.g, Revived(q.v, j)), v := Unbury(q.v, j),
            stats := q.stats.(requeued := q.stats.requeued + 1))
  }

  function Apply(q: Queue, key: EffectKey): Queue {
    if key in q.ledger.marks then q.(stats := q.stats.(effectsSuppressed := q.stats.effectsSuppressed + 1))
    else q.(ledger := Ledger(q.ledger.marks + {key}, q.ledger.log + [key]),
            stats := q.stats.(effectsApplied := q.stats.effectsApplied + 1))
  }
}
