/** The inductive invariant of the whole system, over every run. */
module Reachable {
  import opened QueueTypes
  import opened Scripts
  import opened Protocol
  import opened Invariants
  import opened NoLoss
  import opened Behaviors

  /** The observer's log agrees with the stream, and nobody holds an undelivered entry. */
  ghost predicate LogOk(g: Group, written: seq<Job>, holders: set<(Worker, EntryId)>) {
    && |written| == g.nextId
    && (forall e :: e in g.stream ==> e < |written| && g.stream[e] == written[e])
    && (forall w, e :: (w, e) in holders ==> e < g.delivered)
  }

  predicate Known(accepted: map<JobId, JobType>, job: Job) {
    job.id in accepted && accepted[job.id] == job.jobType
  }

  ghost predicate KnownEntries(accepted: map<JobId, JobType>, written: seq<Job>) {
    forall k :: 0 <= k < |written| ==> Known(accepted, written[k])
  }

  ghost predicate KnownDelayed(accepted: map<JobId, JobType>, delayed: map<Job, int>) {
    forall m :: m in delayed ==> Known(accepted, m)
  }

  ghost predicate KnownVerdicts(accepted: map<JobId, JobType>, v: Verdicts) {
    && (forall d :: d in v.dlq && v.dlq[d].fields.Some? ==> Known(accepted, v.dlq[d].fields.value))
    && (forall j :: j in v.done ==> j in accepted)
  }

  ghost predicate KnownKeys(accepted: map<JobId, JobType>, idem: map<IdemKey, JobId>) {
    forall k :: k in idem ==> idem[k] in accepted
  }

  /** Effects belong to accepted jobs with an effect. */
  ghost predicate KnownMarks(s: Settings, accepted: map<JobId, JobType>, marks: set<EffectKey>) {
    forall k :: k in marks ==> k.job in accepted && s.HasEffect(accepted[k.job]) && k == s.KeyOf(accepted[k.job], k.job)
  }

  /** A SUCCEEDED job's effect happened. */
  ghost predicate EffectsDone(s: Settings, accepted: map<JobId, JobType>, v: Verdicts, marks: set<EffectKey>) {
    forall j :: v.HasSucceeded(j) && j in accepted && s.HasEffect(accepted[j]) ==> s.KeyOf(accepted[j], j) in marks
  }

  /** Every copy of a job, wherever it is, is of an accepted job with its type. */
  ghost predicate BooksOk(s: Settings, sys: System) {
    && LogOk(sys.q.g, sys.written, sys.holders)
    && KnownEntries(sys.accepted, sys.written) && KnownDelayed(sys.accepted, sys.q.delayed)
    && KnownVerdicts(sys.accepted, sys.q.v) && KnownKeys(sys.accepted, sys.q.door.idem)
    && KnownMarks(s, sys.accepted, sys.q.ledger.marks)
    && EffectsDone(s, sys.accepted, sys.q.v, sys.q.ledger.marks)
    && sys.q.g.nextId == sys.enqueued + sys.q.stats.scheduled + sys.q.stats.requeued
  }

  ghost predicate AllAccounted(sys: System) {
    forall j :: j in sys.accepted ==> Accounted(sys.q, j)
  }

  ghost predicate SystemInv(s: Settings, sys: System) {
    QueueInv(sys.q) && BooksOk(s, sys) && AllAccounted(sys)
  }

  lemma ReclaimKeeps(s: Settings, q: Queue, w: Worker, count: nat, ids: seq<EntryId>, gone: set<EntryId>, slots: nat, now: int)
    requires QueueInv(q) && IsClaimList(s, q.g, now, count, ids, gone)
    ensures gone == {} && QueueInv(Reclaim(s, q, w, ids, gone, slots, now))
  {
    assert gone == {};
    assert q.g.pel - gone == q.g.pel;
    ClaimAllKeeps(s, Register(q.g, w, now), Pass(q.g.pel, slots, []), w, ids, now);
  }

  lemma {:induction false} ClaimAllKeeps(s: Settings, g: Group, p: Pass, w: Worker, ids: seq<EntryId>, now: int)
    requires forall e :: e in ids ==> e in p.pel
    requires GroupOk(g.(pel := p.pel)) && w in g.consumers
    ensures GroupOk(g.(pel := ClaimAll(s, p, w, ids, now).pel))
    decreases |ids|
  {
    if ids != [] {
      assert ids[0] in ids;
      var p1 := ClaimOne(s, p, w, ids[0], now);
      if PutBack(s, p, ids[0]) {} else {}
      ClaimAllKeeps(s, g, p1, w, ids[1..], now);
    }
  }

  lemma {:induction false} FetchFrame(g: Group, w: Worker, count: nat, now: int)
    requires g.delivered <= g.nextId
    ensures var r := FetchAll(g, w, count, now);
            r.stream == g.stream && r.nextId == g.nextId && g.delivered <= r.delivered
    decreases count
  {
    if count > 0 {
      if NextFrom(g.stream, g.delivered, g.nextId) == g.nextId {} else {}
      FetchFrame(FetchOne(g, w, now), w, count - 1, now);
    }
  }

  // ---------------------------------------------------------------- the books, per kind of step

  /** Accepting a job, again or for the first time, disturbs no statement about known jobs. */
  lemma AcceptKeeps(s: Settings, x: System, job: Job)
    requires BooksOk(s, x) && (job.id in x.accepted ==> x.accepted[job.id] == job.jobType)
    ensures var accepted := x.accepted[job.id := job.jobType];
            && KnownEntries(accepted, x.written + [job]) && KnownDelayed(accepted, x.q.delayed)
            && KnownVerdicts(accepted, x.q.v) && KnownKeys(accepted, x.q.door.idem)
            && KnownMarks(s, accepted, x.q.ledger.marks)
            && EffectsDone(s, accepted, x.q.v, x.q.ledger.marks)
  {
  }

  lemma AddedBooks(s: Settings, x: System, a: Action, y: System)
    requires BooksOk(s, x) && Next(s, x, a, y) && a.DoEnqueue? && Admit(s, x.q, a.job, a.key).Added?
    ensures BooksOk(s, y)
  {
    AcceptKeeps(s, x, a.job);
    assert LogOk(y.q.g, y.written, y.holders);
    assert KnownKeys(y.accepted, y.q.door.idem);
  }

  lemma RefusedBooks(s: Settings, x: System, a: Action, y: System)
    requires BooksOk(s, x) && Next(s, x, a, y) && a.DoEnqueue? && Admit(s, x.q, a.job, a.key).Refused?
    ensures BooksOk(s, y)
  {
    if a.countAs.CountRejected? {} else if a.countAs.CountBlocked? {} else {}
  }

  lemma DuplicateBooks(s: Settings, x: System, a: Action, y: System)
    requires BooksOk(s, x) && Next(s, x, a, y) && a.DoEnqueue? && Admit(s, x.q, a.job, a.key).DuplicateOf?
    ensures BooksOk(s, y)
  {
  }

  lemma EnqueueBooks(s: Settings, x: System, a: Action, y: System)
    requires BooksOk(s, x) && Next(s, x, a, y) && a.DoEnqueue?
    ensures BooksOk(s, y)
  {
    match Admit(s, x.q, a.job, a.key) {
      case DuplicateOf(_) => DuplicateBooks(s, x, a, y);
      case Refused(_) => RefusedBooks(s, x, a, y);
      case Added(_, _) => AddedBooks(s, x, a, y);
    }
  }

  lemma FetchBooks(s: Settings, x: System, a: Action, y: System)
    requires BooksOk(s, x) && Next(s, x, a, y) && a.DoFetch? && GroupOk(y.q.g)
    ensures BooksOk(s, y)
  {
    FetchFrame(Register(x.q.g, a.w, a.now), a.w, a.count, a.now);
  }

  lemma CommitBooks(s: Settings, x: System, a: Action, y: System)
    requires BooksOk(s, x) && Next(s, x, a, y) && a.DoCommit?
    ensures BooksOk(s, y)
  {
    if x.q.v.HasSucceeded(x.written[a.e].id) {} else {}
  }

  lemma RetryBooks(s: Settings, x: System, a: Action, y: System)
    requires BooksOk(s, x) && Next(s, x, a, y) && a.DoRetry?
    ensures BooksOk(s, y)
  {
    match RetryOutcome(x.q, a.w, a.e, x.written[a.e].id) {
      case LeaseLost =>
      case TerminalState =>
      case EntryMissing =>
      case Ok => if a.timedOut {} else {}
    }
  }

  lemma DeadBooks(s: Settings, x: System, a: Action, y: System)
    requires BooksOk(s, x) && Next(s, x, a, y) && a.DoDead?
    ensures BooksOk(s, y)
  {
    match DeadOutcome(x.q, a.w, a.e, x.written[a.e].id) {
      case LeaseLost =>
      case TerminalState =>
      case EntryMissing =>
      case Ok => if a.timedOut {} else {}
    }
  }

  lemma {:induction false} ScheduleBooks(s: Settings, x: System, due: seq<Job>)
    requires BooksOk(s, x)
    requires forall m :: m in due ==> m in x.q.delayed
    requires forall i, k :: 0 <= i < k < |due| ==> due[i] != due[k]
    ensures BooksOk(s, x.(q := Schedule(x.q, due), written := x.written + due))
    decreases |due|
  {
    if due == [] {
      assert x.written + due == x.written;
    } else {
      var y := x.(q := MoveOne(x.q, due[0]), written := x.written + [due[0]]);
      assert BooksOk(s, y);
      ScheduleBooks(s, y, due[1..]);
      assert x.written + due == y.written + due[1..];
    }
  }

  lemma ReclaimBooks(s: Settings, x: System, a: Action, y: System)
    requires QueueInv(x.q) && BooksOk(s, x) && Next(s, x, a, y) && a.DoReclaim?
    ensures BooksOk(s, y)
  {
    KeptWereClaimed(s, Pass(x.q.g.pel - a.gone, a.slots, []), a.w, a.ids, a.now);
  }

  lemma RequeueBooks(s: Settings, x: System, a: Action, y: System)
    requires BooksOk(s, x) && Next(s, x, a, y) && a.DoRequeue?
    ensures BooksOk(s, y)
  {
    if RequeueOutcomeOf(x.q.v, a.j).Requeued? {} else {}
  }

  lemma EffectBooks(s: Settings, x: System, a: Action, y: System)
    requires BooksOk(s, x) && Next(s, x, a, y) && a.DoEffect?
    ensures BooksOk(s, y)
  {
    if s.KeyOf(x.written[a.e].jobType, x.written[a.e].id) in x.q.ledger.marks {} else {}
  }

  lemma OtherBooks(s: Settings, x: System, a: Action, y: System)
    requires BooksOk(s, x) && Next(s, x, a, y) && (a.DoExpireKey? || a.DoHeartbeat? || a.DoPrune?)
    ensures BooksOk(s, y)
  {
    if a.DoHeartbeat? {
      if Owns(x.q.g, a.w, a.e) {} else {}
    }
  }

  lemma BooksStep(s: Settings, x: System, a: Action, y: System)
    requires QueueInv(x.q) && QueueInv(y.q) && BooksOk(s, x) && Next(s, x, a, y)
    ensures BooksOk(s, y)
  {
    match a
    case DoEnqueue(_, _, _) => EnqueueBooks(s, x, a, y);
    case DoFetch(_, _, _) => FetchBooks(s, x, a, y);
    case DoEffect(_, _) => EffectBooks(s, x, a, y);
    case DoCommit(_, _, _, _) => CommitBooks(s, x, a, y);
    case DoRetry(_, _, _, _, _) => RetryBooks(s, x, a, y);
    case DoDead(_, _, _, _, _, _, _) => DeadBooks(s, x, a, y);
    case DoSchedule(_, due, _) => ScheduleBooks(s, x, due);
    case DoReclaim(_, _, _, _, _, _) => ReclaimBooks(s, x, a, y);
    case DoRequeue(_) => RequeueBooks(s, x, a, y);
    case _ => OtherBooks(s, x, a, y);
  }

  // ---------------------------------------------------------------- the queue and the jobs, per kind of step

  predicate IsTransition(a: Action) {
    a.DoCommit? || a.DoRetry? || a.DoDead? || a.DoRequeue?
  }

  lemma CommitStep(s: Settings, x: System, a: Action, y: System)
    requires SystemInv(s, x) && Next(s, x, a, y) && a.DoCommit?
    ensures QueueInv(y.q) && AllAccounted(y)
  {
    CommitKeeps(x.q, a.w, a.e, x.written[a.e].id, a.result, a.now);
    forall j | j in y.accepted ensures Accounted(y.q, j) {
      CommitAccounts(x.q, a.w, a.e, x.written[a.e].id, a.result, a.now, j);
    }
  }

  lemma RetryStep(s: Settings, x: System, a: Action, y: System)
    requires SystemInv(s, x) && Next(s, x, a, y) && a.DoRetry?
    ensures QueueInv(y.q) && AllAccounted(y)
  {
    RetryKeeps(x.q, a.w, a.e, x.written[a.e].id, x.written[a.e].attempt + 1, a.delay, a.timedOut, a.now);
    RetryAllAccounts(x.q, a.w, a.e, x.written[a.e], a.delay, a.timedOut, a.now, x.accepted.Keys);
    match RetryOutcome(x.q, a.w, a.e, x.written[a.e].id) {
      case LeaseLost => case TerminalState => case EntryMissing => case Ok =>
    }
  }

  lemma RetryAllAccounts(q: Queue, w: Worker, e: EntryId, job: Job, delay: int, timedOut: bool, now: int, accepted: set<JobId>)
    requires (forall j :: j in accepted ==> Accounted(q, j)) && (e in q.g.stream ==> q.g.stream[e] == job)
    ensures forall j :: j in accepted ==> Accounted(Retry(q, w, e, job.id, job.attempt + 1, delay, timedOut, now), j)
  {
    forall j | j in accepted ensures Accounted(Retry(q, w, e, job.id, job.attempt + 1, delay, timedOut, now), j) {
      RetryAccounts(q, w, e, job.id, job.attempt + 1, delay, timedOut, now, j);
    }
  }

  lemma DeadStep(s: Settings, x: System, a: Action, y: System)
    requires SystemInv(s, x) && Next(s, x, a, y) && a.DoDead?
    ensures QueueInv(y.q) && AllAccounted(y)
  {
    DeadLetterKeeps(x.q, a.w, a.e, x.written[a.e].id, a.reason, a.error, a.attempts, a.timedOut, a.now);
    forall j | j in y.accepted ensures Accounted(y.q, j) {
      DeadLetterAccounts(x.q, a.w, a.e, x.written[a.e].id, a.reason, a.error, a.attempts, a.timedOut, a.now, j);
    }
  }

  lemma RequeueStep(s: Settings, x: System, a: Action, y: System)
    requires SystemInv(s, x) && Next(s, x, a, y) && a.DoRequeue?
    ensures QueueInv(y.q) && AllAccounted(y)
  {
    RequeueKeeps(x.q, a.j);
    forall j | j in y.accepted ensures Accounted(y.q, j) {
      RequeueAccounts(x.q, a.j, j);
    }
  }

  lemma TransitionStep(s: Settings, x: System, a: Action, y: System)
    requires SystemInv(s, x) && Next(s, x, a, y) && IsTransition(a)
    ensures QueueInv(y.q) && AllAccounted(y)
  {
    match a
    case DoCommit(_, _, _, _) => CommitStep(s, x, a, y);
    case DoRetry(_, _, _, _, _) => RetryStep(s, x, a, y);
    case DoDead(_, _, _, _, _, _, _) => DeadStep(s, x, a, y);
    case DoRequeue(_) => RequeueStep(s, x, a, y);
  }

  lemma MovementStep(s: Settings, x: System, a: Action, y: System)
    requires SystemInv(s, x) && Next(s, x, a, y) && (a.DoEnqueue? || a.DoFetch? || a.DoSchedule? || a.DoReclaim?)
    ensures QueueInv(y.q) && AllAccounted(y)
  {
    match a
    case DoEnqueue(job, key, countAs) =>
      EnqueueKeeps(s, x.q, job, key, countAs);
      forall j | j in y.accepted ensures Accounted(y.q, j) { EnqueueAccounts(s, x.q, job, key, countAs, j); }
    case DoFetch(w, count, now) =>
      FetchAllKeeps(Register(x.q.g, w, now), w, count, now);
      FetchFrame(Register(x.q.g, w, now), w, count, now);
    case DoSchedule(_, due, _) =>
      ScheduleKeeps(x.q, due);
      forall j | j in y.accepted ensures Accounted(y.q, j) { ScheduleAccounts(x.q, due, j); }
    case DoReclaim(w, count, ids, gone, slots, now) =>
      ReclaimKeeps(s, x.q, w, count, ids, gone, slots, now);
  }

  lemma UpkeepStep(s: Settings, x: System, a: Action, y: System)
    requires SystemInv(s, x) && Next(s, x, a, y) && (a.DoExpireKey? || a.DoHeartbeat? || a.DoEffect? || a.DoPrune?)
    ensures QueueInv(y.q) && AllAccounted(y)
  {
    match a
    case DoExpireKey(_) =>
    case DoHeartbeat(w, e, now) =>
      HeartbeatKeeps(x.q, w, e, now);
      if Owns(x.q.g, w, e) {} else {}
    case DoEffect(_, e) =>
      ApplyKeeps(x.q, s.KeyOf(x.written[e].jobType, x.written[e].id));
      if s.KeyOf(x.written[e].jobType, x.written[e].id) in x.q.ledger.marks {} else {}
    case DoPrune(w, now) => PruneKeeps(s, x.q, w, now);
  }

  /** The system invariant is inductive. */
  lemma StepKeeps(s: Settings, x: System, a: Action, y: System)
    requires SystemInv(s, x) && Next(s, x, a, y)
    ensures SystemInv(s, y)
  {
    if IsTransition(a) {
      TransitionStep(s, x, a, y);
    } else if a.DoEnqueue? || a.DoFetch? || a.DoSchedule? || a.DoReclaim? {
      MovementStep(s, x, a, y);
    } else {
      UpkeepStep(s, x, a, y);
    }
    BooksStep(s, x, a, y);
  }

  lemma EmptyQueueInv(q: Queue)
    requires IsEmpty(q)
    ensures QueueInv(q)
  {
    assert GroupOk(q.g) && VerdictsOk(q.v);
    assert LedgerOk(q.ledger);
  }

  lemma InitBooks(s: Settings, x: System)
    requires IsInit(x)
    ensures BooksOk(s, x)
  {
    assert KnownVerdicts(x.accepted, x.q.v) && EffectsDone(s, x.accepted, x.q.v, x.q.ledger.marks);
  }

  // ---------------------------------------------------------------- over whole runs

  ghost function InvOf(s: Settings): System -> bool {
    x => SystemInv(s, x)
  }

  lemma MakeInv(s: Settings, x: System)
    requires QueueInv(x.q) && BooksOk(s, x) && AllAccounted(x)
    ensures InvOf(s)(x)
  {
  }

  lemma InitInv(s: Settings, x: System)
    requires IsInit(x)
    ensures InvOf(s)(x)
  {
    EmptyQueueInv(x.q);
    InitBooks(s, x);
    InitAccounted(x);
    MakeInv(s, x);
  }

  lemma InitAccounted(x: System)
    requires IsInit(x)
    ensures AllAccounted(x)
  {
  }

  lemma InvInductive(s: Settings)
    ensures forall x, a, y :: InvOf(s)(x) && NextOf(s)(x, a, y) ==> InvOf(s)(y)
  {
    forall x, a, y | InvOf(s)(x) && NextOf(s)(x, a, y) ensures InvOf(s)(y) {
      StepKeeps(s, x, a, y);
    }
  }

  lemma InitInvOf(s: Settings)
    ensures forall x :: IsInit(x) ==> InvOf(s)(x)
  {
    forall x | IsInit(x) ensures InvOf(s)(x) {
      InitInv(s, x);
    }
  }

  lemma AlwaysInvOf(s: Settings, states: seq<System>, acts: seq<Action>, i: nat)
    requires IsRun(s, states, acts) && i < |states|
    ensures InvOf(s)(states[i])
  {
    InitInvOf(s);
    InvInductive(s);
    Always(x => IsInit(x), NextOf(s), InvOf(s), states, acts, i);
  }

  /** Every state of every run satisfies the invariant. */
  lemma AlwaysInv(s: Settings, states: seq<System>, acts: seq<Action>, i: nat)
    requires IsRun(s, states, acts) && i < |states|
    ensures SystemInv(s, states[i])
  {
    AlwaysInvOf(s, states, acts, i);
  }

  lemma EverywhereInvOf(s: Settings, states: seq<System>, acts: seq<Action>, i: nat, k: nat)
    requires IsRun(s, states, acts) && i <= k <= |states|
    ensures Throughout(InvOf(s), states, i, k)
  {
    forall m | i <= m < k ensures InvOf(s)(states[m]) {
      AlwaysInvOf(s, states, acts, m);
    }
  }
}
