/** No job is ever lost: a script never takes away the last trace of a job. */
module NoLoss {
  import opened QueueTypes
  import opened Scripts
  import opened Protocol
  import opened Invariants

  ghost predicate InStream(stream: map<EntryId, Job>, j: JobId) {
    exists e :: e in stream && stream[e].id == j
  }

  ghost predicate InDelayed(delayed: map<Job, int>, j: JobId) {
    exists m :: m in delayed && m.id == j
  }

  /** The job has a terminal record or a copy that can still be run. */
  ghost predicate Accounted(q: Queue, j: JobId) {
    j in q.v.done || InStream(q.g.stream, j) || InDelayed(q.delayed, j)
  }

  lemma ExitAccounts(stream: map<EntryId, Job>, e: EntryId, j: JobId)
    requires InStream(stream, j) && (e in stream ==> stream[e].id != j)
    ensures InStream(stream - {e}, j)
  {
    var x :| x in stream && stream[x].id == j;
    assert x in stream - {e};
  }

  lemma AppendAccounts(g: Group, job: Job, j: JobId)
    requires GroupOk(g)
    ensures InStream(g.stream, j) || job.id == j ==> InStream(Append(g, job).stream, j)
  {
    var after := Append(g, job).stream;
    if job.id == j {
      assert after[g.nextId].id == j;
    } else if InStream(g.stream, j) {
      var x :| x in g.stream && g.stream[x].id == j;
      assert after[x].id == j;
    }
  }

  lemma EnqueueAccounts(s: Settings, q: Queue, job: Job, key: Option<IdemKey>, countAs: CountAs, j: JobId)
    requires GroupOk(q.g)
    requires Accounted(q, j) || (Admit(s, q, job, key).Added? && j == job.id)
    ensures Accounted(Enqueue(s, q, job, key, countAs), j)
  {
    AppendAccounts(q.g, job, j);
    match Admit(s, q, job, key) {
      case DuplicateOf(_) =>
      case Refused(_) =>
      case Added(_, _) =>
    }
  }

  lemma SuppressAccounts(q: Queue, e: EntryId, j: JobId)
    requires Accounted(q, j) && (e in q.g.stream ==> q.g.stream[e].id in q.v.done)
    ensures Accounted(Suppress(q, e), j)
  {
    if j !in q.v.done && InStream(q.g.stream, j) {
      ExitAccounts(q.g.stream, e, j);
    }
  }

  lemma CommitAccounts(q: Queue, w: Worker, e: EntryId, job: JobId, result: string, now: int, j: JobId)
    requires Accounted(q, j) && (e in q.g.stream ==> q.g.stream[e].id == job)
    ensures Accounted(Commit(q, w, e, job, result, now), j)
  {
    if q.v.HasSucceeded(job) {
      SuppressAccounts(q, e, j);
    } else if j != job && j !in q.v.done && InStream(q.g.stream, j) {
      ExitAccounts(q.g.stream, e, j);
    }
  }

  lemma RetryAccounts(q: Queue, w: Worker, e: EntryId, job: JobId, attempt: nat, delay: int, timedOut: bool, now: int, j: JobId)
    requires Accounted(q, j) && (e in q.g.stream ==> q.g.stream[e].id == job)
    ensures Accounted(Retry(q, w, e, job, attempt, delay, timedOut, now), j)
  {
    match RetryOutcome(q, w, e, job) {
      case LeaseLost =>
      case TerminalState => SuppressAccounts(q, e, j);
      case EntryMissing =>
      case Ok =>
        var parked := q.g.stream[e].(attempt := attempt);
        var after := q.delayed[parked := now + delay];
        assert parked in after && parked.id == job;
        if InDelayed(q.delayed, j) {
          var m :| m in q.delayed && m.id == j;
          assert m in after;
        } else if j != job && j !in q.v.done {
          ExitAccounts(q.g.stream, e, j);
        }
    }
  }

  lemma DeadLetterAccounts(q: Queue, w: Worker, e: EntryId, job: JobId, reason: DeadReason, error: string,
                           attempts: nat, timedOut: bool, now: int, j: JobId)
    requires Accounted(q, j) && (e in q.g.stream ==> q.g.stream[e].id == job)
    ensures Accounted(DeadLetter(q, w, e, job, reason, error, attempts, timedOut, now), j)
  {
    match DeadOutcome(q, w, e, job) {
      case LeaseLost =>
      case TerminalState => SuppressAccounts(q, e, j);
      case EntryMissing =>
      case Ok =>
        if j != job && j !in q.v.done && InStream(q.g.stream, j) {
          ExitAccounts(q.g.stream, e, j);
        }
    }
  }

  lemma {:induction false} ScheduleAccounts(q: Queue, due: seq<Job>, j: JobId)
    requires GroupOk(q.g) && Accounted(q, j)
    ensures Accounted(Schedule(q, due), j)
    decreases |due|
  {
    if due != [] {
      var moved := MoveOne(q, due[0]);
      AppendKeeps(q.g, due[0]);
      AppendAccounts(q.g, due[0], j);
      if due[0].id != j && InDelayed(q.delayed, j) {
        var m :| m in q.delayed && m.id == j;
        assert m in moved.delayed;
      }
      ScheduleAccounts(moved, due[1..], j);
    }
  }

  lemma RequeueAccounts(q: Queue, job: JobId, j: JobId)
    requires GroupOk(q.g) && VerdictsOk(q.v) && Accounted(q, j)
    ensures Accounted(Requeue(q, job), j)
  {
    if RequeueOutcomeOf(q.v, job).Requeued? {
      AppendAccounts(q.g, Revived(q.v, job), j);
    }
  }
}
