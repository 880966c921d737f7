/** The data one queue keeps in Redis (`src/ftq/keys.py`), one field per key. */
module QueueTypes {

  // Names are opaque: they are only ever compared, so numbers stand for them.
  type JobId = nat
  type Worker = nat
  type JobType = nat
  type IdemKey = nat
  type Prefix = nat

  /** Stream ids, in the order Redis issues them. */
  type EntryId = nat

  /** A ledger key, written `prefix:job_id`: handlers derive it from the job id alone. */
  datatype EffectKey = EffectKey(prefix: Prefix, job: JobId)

  datatype Option<+T> = None | Some(value: T)

  /** A stream entry's fields; `body` stands for payload, idempotency key and enqueue time. */
  datatype Job = Job(id: JobId, jobType: JobType, body: string, attempt: nat)

  /** One Pending Entries List record; the idle time at `now` is `now - since`. */
  datatype Lease = Lease(owner: Worker, since: int, deliveries: nat)

  datatype DeadReason = MaxAttempts | MaxDeliveries | Malformed | UnknownType

  /** The `done` hash of one job. */
  datatype Terminal =
    | Succeeded(result: string, worker: Worker, at: int)
    | Dead(entry: EntryId, reason: DeadReason, error: string, worker: Worker, at: int)

  /** A dead-letter entry; `fields` is None when the stream entry had vanished. */
  datatype DeadJob = DeadJob(jobId: JobId, fields: Option<Job>, reason: DeadReason, error: string,
                             attempts: nat, deliveries: nat, worker: Worker, at: int, source: EntryId)

  datatype Stats = Stats(
    processed: nat, duplicatesSuppressed: nat, effectsApplied: nat, effectsSuppressed: nat,
    retried: nat, scheduled: nat, dead: nat, lateSuccesses: nat, requeued: nat, reclaimed: nat,
    heartbeats: nat, leaseLost: nat, consumersPruned: nat, timeouts: nat, rejected: nat, blocked: nat)

  /** The stream and its consumer group. Ids below `nextId` have been issued, and those below
      `delivered` have been read by the group. */
  datatype Group = Group(stream: map<EntryId, Job>, nextId: EntryId, delivered: EntryId,
                         pel: map<EntryId, Lease>, consumers: map<Worker, int>)

  /** The jobs' terminal records, the append-only results log, and the dead-letter stream. */
  datatype Verdicts = Verdicts(done: map<JobId, Terminal>, results: seq<JobId>,
                               dlq: map<EntryId, DeadJob>, nextDead: EntryId)
  {
    predicate HasSucceeded(j: JobId) {
      j in done && done[j].Succeeded?
    }

    predicate IsDead(j: JobId) {
      j in done && done[j].Dead?
    }
  }

  /** The effect markers and the append-only effects log. */
  datatype Ledger = Ledger(marks: set<EffectKey>, log: seq<EffectKey>)

  /** Enqueue's own keys: idempotency keys and the backpressure flag. */
  datatype Door = Door(idem: map<IdemKey, JobId>, full: bool)

  /** Redis's view of the queue. `reclaims` counts reclaims by the delivery count they led to. */
  datatype Queue = Queue(g: Group, delayed: map<Job, int>, v: Verdicts, ledger: Ledger, door: Door,
                         stats: Stats, reclaims: map<nat, nat>)

  /** The settings the scripts are called with (`src/ftq/config.py`), and the key prefix of every
      job type whose handler performs an effect through the ledger. */
  datatype Settings = Settings(lease: nat, suspectDeliveries: nat, maxDeliveries: nat,
                               pruneIdle: nat, high: nat, low: nat, batch: nat,
                               effects: map<JobType, Prefix>)
  {
    /** The field bounds and the hysteresis check of `Settings._check`. */
    predicate Valid() {
      && 2 <= suspectDeliveries && 1 <= maxDeliveries && 1 <= batch
      && 1 <= high && low < high
    }

    function SuspectThreshold(): nat {
      if suspectDeliveries < maxDeliveries then suspectDeliveries else maxDeliveries
    }

    /** `Claimed.is_suspect`: redelivered often, but not so often that it goes to the DLQ unrun. */
    predicate IsSuspect(deliveries: nat) {
      SuspectThreshold() <= deliveries <= maxDeliveries
    }

    predicate HasEffect(t: JobType) {
      t in effects
    }

    function KeyOf(t: JobType, j: JobId): EffectKey
      requires HasEffect(t)
    {
      EffectKey(effects[t], j)
    }
  }

  datatype Outcome = Ok | LeaseLost | TerminalState | EntryMissing
  datatype CommitOutcome = Duplicate | Committed | LateSuccess
  datatype Admission = Added(id: JobId, depth: nat) | DuplicateOf(id: JobId) | Refused(depth: nat)
  datatype CountAs = CountRejected | CountBlocked | CountNone
  datatype RequeueOutcome = Requeued | NotDead | NothingToRequeue
  datatype Claimed = Claimed(entry: EntryId, fields: Job, deliveries: nat)
}
