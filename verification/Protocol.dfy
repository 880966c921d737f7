/** The queue as a labelled transition system. Every script call is one atomic step. A worker that
    was ever handed an entry may make any call about it at any later time and any number of times,
    so crashes, pauses past the lease, lost replies and re-sends are all covered; a producer may
    re-send an enqueue, and any worker may run the scheduler, the reaper and the pruner. */
module Protocol {
  import opened QueueTypes
  import opened Scripts
  import opened Behaviors

  /** The queue plus what an observer of the whole run remembers: the fields of every entry ever
      added (indexed by entry id), who was handed which entry, the accepted jobs and their types,
      the highest delivery count each entry reached, and how many enqueues added an entry. */
  datatype System = System(q: Queue, written: seq<Job>, holders: set<(Worker, EntryId)>,
                           accepted: map<JobId, JobType>, reach: map<EntryId, nat>, enqueued: nat)

  /** No key exists yet. */
  predicate IsEmpty(q: Queue) {
    && q.g == Group(map[], 0, 0, map[], map[]) && q.delayed == map[]
    && q.v == Verdicts(map[], [], map[], 0) && q.ledger == Ledger({}, []) && q.door == Door(map[], false)
    && q.stats == Stats(0, 0, 0, 0, 0, 0, 0, 0, 0, 0, 0, 0, 0, 0, 0, 0) && q.reclaims == map[]
  }

  /** Nothing has happened yet. */
  predicate IsInit(x: System) {
    IsEmpty(x.q) && x.written == [] && x.holders == {} && x.accepted == map[] && x.reach == map[] && x.enqueued == 0
  }

  datatype Action =
    | DoEnqueue(job: Job, key: Option<IdemKey>, countAs: CountAs)
    | DoExpireKey(idemKey: IdemKey)
    | DoFetch(w: Worker, count: nat, now: int)
    | DoHeartbeat(w: Worker, e: EntryId, now: int)
    | DoEffect(w: Worker, e: EntryId)
    | DoCommit(w: Worker, e: EntryId, result: string, now: int)
    | DoRetry(w: Worker, e: EntryId, delay: int, timedOut: bool, now: int)
    | DoDead(w: Worker, e: EntryId, reason: DeadReason, error: string, attempts: nat, timedOut: bool, now: int)
    | DoSchedule(w: Worker, due: seq<Job>, now: int)
    | DoReclaim(w: Worker, count: nat, ids: seq<EntryId>, gone: set<EntryId>, slots: nat, now: int)
    | DoPrune(w: Worker, now: int)
    | DoRequeue(j: JobId)

  /** What Redis's clock read at the step; None for a step that does not read it. */
  function TimeOf(a: Action): Option<int> {
    match a
    case DoFetch(_, _, now) => Some(now)
    case DoHeartbeat(_, _, now) => Some(now)
    case DoCommit(_, _, _, now) => Some(now)
    case DoRetry(_, _, _, _, now) => Some(now)
    case DoDead(_, _, _, _, _, _, now) => Some(now)
    case DoSchedule(_, _, now) => Some(now)
    case DoReclaim(_, _, _, _, _, now) => Some(now)
    case DoPrune(_, now) => Some(now)
    case _ => None
  }

  /** The clock never reads less than `t`, nor less than it read before. */
  ghost predicate Clocked(acts: seq<Action>, t: int) {
    && (forall i :: 0 <= i < |acts| && TimeOf(acts[i]).Some? ==> t <= TimeOf(acts[i]).value)
    && forall i, k :: 0 <= i < k < |acts| && TimeOf(acts[i]).Some? && TimeOf(acts[k]).Some? ==>
         TimeOf(acts[i]).value <= TimeOf(acts[k]).value
  }

  /** The call, whatever the clock reads when it runs: the scripts ask Redis for the time themselves. */
  function Untimed(a: Action): Action {
    match a
    case DoFetch(w, count, _) => DoFetch(w, count, 0)
    case DoHeartbeat(w, e, _) => DoHeartbeat(w, e, 0)
    case DoCommit(w, e, result, _) => DoCommit(w, e, result, 0)
    case DoRetry(w, e, delay, timedOut, _) => DoRetry(w, e, delay, timedOut, 0)
    case DoDead(w, e, reason, error, attempts, timedOut, _) => DoDead(w, e, reason, error, attempts, timedOut, 0)
    case DoSchedule(w, due, _) => DoSchedule(w, due, 0)
    case DoReclaim(w, count, ids, gone, slots, _) => DoReclaim(w, count, ids, gone, slots, 0)
    case DoPrune(w, _) => DoPrune(w, 0)
    case _ => a
  }

  /** The same call, sent again. */
  predicate SameCall(a: Action, b: Action) {
    Untimed(a) == Untimed(b)
  }

  predicate Handed(sys: System, w: Worker, e: EntryId) {
    (w, e) in sys.holders && e < |sys.written|
  }

  /** The ledger shows the job's effect, if its type has one. */
  predicate EffectDone(s: Settings, ledger: Ledger, job: Job) {
    s.HasEffect(job.jobType) ==> s.KeyOf(job.jobType, job.id) in ledger.marks
  }

  /** When a step can be taken. A job id names one job (ids are UUIDs), and a successful run of a
      job with an effect called the ledger before its commit. */
  ghost predicate Enabled(s: Settings, sys: System, a: Action) {
    match a
    case DoEnqueue(job, _, _) =>
      job.attempt == 0 && (job.id in sys.accepted ==> sys.accepted[job.id] == job.jobType)
    case DoFetch(_, _, _) => sys.q.g.delivered <= sys.q.g.nextId
    case DoHeartbeat(w, e, _) => Handed(sys, w, e)
    case DoEffect(w, e) => Handed(sys, w, e) && s.HasEffect(sys.written[e].jobType)
    case DoCommit(w, e, _, _) => Handed(sys, w, e) && EffectDone(s, sys.q.ledger, sys.written[e])
    case DoRetry(w, e, _, _, _) => Handed(sys, w, e)
    case DoDead(w, e, _, _, _, _, _) => Handed(sys, w, e)
    case DoSchedule(_, due, now) => IsDueRange(sys.q.delayed, now, s.batch, due)
    case DoReclaim(_, count, ids, gone, _, now) => IsClaimList(s, sys.q.g, now, count, ids, gone)
    case _ => true
  }

  function Deliveries(pel: map<EntryId, Lease>): map<EntryId, nat> {
    map e | e in pel :: pel[e].deliveries
  }

  /** The observer notes the new state of the queue. */
  function Observe(x: System, q: Queue): System {
    x.(q := q, reach := x.reach + Deliveries(q.g.pel))
  }

  /** The entries a fetch newly handed to `w`. */
  function Fetched(before: Group, after: Group, w: Worker): set<(Worker, EntryId)> {
    set e | e in after.pel && before.delivered <= e :: (w, e)
  }

  /** The entries a reclaim pass handed to `w`: those it kept, not those it put back. */
  function Taken(p: Pass, w: Worker): set<(Worker, EntryId)> {
    set e | e in p.kept :: (w, e)
  }

  ghost predicate Next(s: Settings, x: System, a: Action, y: System) {
    && Enabled(s, x, a)
    && match a
       case DoEnqueue(job, key, countAs) =>
         var z := Observe(x, Enqueue(s, x.q, job, key, countAs));
         if Admit(s, x.q, job, key).Added? then
           y == z.(written := x.written + [job], accepted := x.accepted[job.id := job.jobType],
                   enqueued := x.enqueued + 1)
         else y == z
       case DoExpireKey(k) => y == Observe(x, x.q.(door := x.q.door.(idem := x.q.door.idem - {k})))
       case DoFetch(w, count, now) =>
         var z := Observe(x, Fetch(x.q, w, count, now));
         y == z.(holders := x.holders + Fetched(x.q.g, z.q.g, w))
       case DoHeartbeat(w, e, now) => y == Observe(x, Heartbeat(x.q, w, e, now))
       case DoEffect(_, e) => y == Observe(x, Apply(x.q, s.KeyOf(x.written[e].jobType, x.written[e].id)))
       case DoCommit(w, e, result, now) => y == Observe(x, Commit(x.q, w, e, x.written[e].id, result, now))
       case DoRetry(w, e, delay, timedOut, now) =>
         y == Observe(x, Retry(x.q, w, e, x.written[e].id, x.written[e].attempt + 1, delay, timedOut, now))
       case DoDead(w, e, reason, error, attempts, timedOut, now) =>
         y == Observe(x, DeadLetter(x.q, w, e, x.written[e].id, reason, error, attempts, timedOut, now))
       case DoSchedule(_, due, _) => y == Observe(x, Schedule(x.q, due)).(written := x.written + due)
       case DoReclaim(w, _, ids, gone, slots, now) =>
         y == Observe(x, Reclaim(s, x.q, w, ids, gone, slots, now))
              .(holders := x.holders + Taken(ReclaimPass(s, x.q.g, w, ids, gone, slots, now), w))
       case DoPrune(w, now) => y == Observe(x, Prune(s, x.q, w, now))
       case DoRequeue(j) =>
         if RequeueOutcomeOf(x.q.v, j).Requeued? then
           y == Observe(x, Requeue(x.q, j)).(written := x.written + [Revived(x.q.v, j)])
         else y == Observe(x, Requeue(x.q, j))
  }

  ghost function NextOf(s: Settings): (System, Action, System) -> bool {
    (x, a, y) => Next(s, x, a, y)
  }

  /** `states` is what the system goes through, from some point on, while it takes the steps `acts`. */
  ghost predicate IsStretch(s: Settings, states: seq<System>, acts: seq<Action>) {
    IsBehavior(NextOf(s), states, acts)
  }

  /** A stretch from the empty queue. */
  ghost predicate IsRun(s: Settings, states: seq<System>, acts: seq<Action>) {
    IsExecution(x => IsInit(x), NextOf(s), states, acts)
  }

  lemma StepOf(s: Settings, states: seq<System>, acts: seq<Action>, i: nat)
    requires IsStretch(s, states, acts) && i < |acts|
    ensures Next(s, states[i], acts[i], states[i + 1])
  {
    assert NextOf(s)(states[i], acts[i], states[i + 1]);
  }
}
