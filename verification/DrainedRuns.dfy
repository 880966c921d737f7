/** What the chaos verifier says of the queue's own runs: a drained run in which every job ended as
    its kind must, with no late success on the way, passes. */
module DrainedRuns {
  import opened QueueTypes
  import opened Scripts
  import opened Protocol
  import opened Invariants
  import Reachability = Reachable
  import Loss = NoLoss
  import Guarantees
  import Workers = Policy
  import opened Verifier

  /** A stream's entries below `upto`, in id order. */
  function Read(dlq: map<EntryId, DeadJob>, upto: EntryId): seq<DeadJob> {
    if upto == 0 then []
    else Read(dlq, upto - 1) + if upto - 1 in dlq then [dlq[upto - 1]] else []
  }

  /** What the verifier reads in a given state. */
  function EvidenceIn(q: Queue): Evidence {
    Evidence(q.v.done, q.v.results, q.ledger.log, Read(q.v.dlq, q.v.nextDead), q.stats,
             |q.g.stream|, |q.g.pel|, |q.delayed|)
  }

  function EffectOf(s: Settings, t: JobType): Option<Prefix> {
    if s.HasEffect(t) then Some(s.effects[t]) else None
  }

  /** The kinds describe the jobs that were accepted. */
  ghost predicate KindsFit(s: Settings, a: Accepted, accepted: map<JobId, JobType>) {
    a.kinds.Keys == accepted.Keys && forall j :: j in accepted ==> a.kinds[j].Effect() == EffectOf(s, accepted[j])
  }

  /** The entry of a job, if it is DEAD and below `upto`. */
  function EntryBelow(v: Verdicts, upto: EntryId, j: JobId): seq<DeadJob>
    requires v.IsDead(j) ==> v.done[j].entry in v.dlq
  {
    if v.IsDead(j) && v.done[j].entry < upto then [v.dlq[v.done[j].entry]] else []
  }

  lemma EntryBelowNext(v: Verdicts, d: EntryId, j: JobId)
    requires VerdictsOk(v)
    ensures EntryBelow(v, d + 1, j) == EntryBelow(v, d, j) + if d in v.dlq && v.dlq[d].jobId == j then [v.dlq[d]] else []
  {
    if d in v.dlq {
      assert BuriedAt(v, v.dlq[d].jobId, d);
    }
  }

  lemma {:induction false} EntriesOfRead(v: Verdicts, upto: EntryId, j: JobId)
    requires VerdictsOk(v)
    ensures Entries(Read(v.dlq, upto), j) == EntryBelow(v, upto, j)
    decreases upto
  {
    if upto > 0 {
      EntriesOfRead(v, upto - 1, j);
      EntryBelowNext(v, upto - 1, j);
      var rest := Read(v.dlq, upto - 1);
      if upto - 1 in v.dlq {
        EntriesNext(rest, v.dlq[upto - 1], j);
      } else {
        assert rest + [] == rest;
      }
    }
  }

  /** Nothing is left to run, so every accepted job has a terminal record. */
  lemma DrainedMeansDone(s: Settings, x: System, j: JobId)
    requires Reachability.SystemInv(s, x) && x.q.g.stream == map[] && x.q.delayed == map[] && j in x.accepted
    ensures j in x.q.v.done && x.q.g.pel == map[]
  {
    assert Loss.Accounted(x.q, j);
  }

  lemma EffectsAreDue(s: Settings, a: Accepted, accepted: map<JobId, JobType>, v: Verdicts, ledger: Ledger, ev: Evidence)
    requires Reachability.KnownMarks(s, accepted, ledger.marks) && Reachability.EffectsDone(s, accepted, v, ledger.marks)
    requires LedgerOk(ledger) && KindsFit(s, a, accepted) && ev.done == v.done && ev.effects == ledger.log
    requires forall j :: j in accepted ==> EndedWell(a.kinds[j], ev, j)
    ensures EffectsExact(a, ev)
  {
    forall key ensures key in ledger.marks <==> IsDue(a, ev, key) {
      if key in ledger.marks {
        assert EffectOf(s, accepted[key.job]) == Some(key.prefix);
      }
      if IsDue(a, ev, key) {
        assert s.KeyOf(accepted[key.job], key.job) == key;
      }
    }
  }

  /** What can be said whatever the workers put down as reasons, attempts and errors. */
  lemma DrainedRunPasses(s: Settings, a: Accepted, states: seq<System>, acts: seq<Action>)
    requires IsRun(s, states, acts) && KindsFit(s, a, states[|acts|].accepted)
    requires var q := states[|acts|].q; q.g.stream == map[] && q.delayed == map[] && q.stats.lateSuccesses == 0
    requires forall j :: j in a.kinds ==> (states[|acts|].q.v.IsDead(j) <==> a.kinds[j].MustDie())
    ensures var ev := EvidenceIn(states[|acts|].q);
            NoLoss(a, ev) && EffectsExact(a, ev) && ResultsExact(a, ev) && DlqMembership(a, ev) && Drained(ev)
  {
    var x := states[|acts|];
    var ev := EvidenceIn(x.q);
    Reachability.AlwaysInv(s, states, acts, |acts|);
    assert x.q.g.pel == map[];
    forall j | j in x.accepted ensures EndedWell(a.kinds[j], ev, j) {
      DrainedMeansDone(s, x, j);
    }
    EffectsAreDue(s, a, x.accepted, x.q.v, x.q.ledger, ev);
    forall j ensures InDlqAsMeant(a, ev, j) {
      EntriesOfRead(x.q.v, x.q.v.nextDead, j);
    }
  }
  // ---------------------------------------------------------------- what the DLQ tells

  /** How handlers of a kind fail: a crashy job never lives to fail an attempt, the others always do, and a
      hang forever by its timeout; so this is the reason and the error that their workers report. */
  predicate FailsAsKind(a: Accepted, x: System, act: Action) {
    act.DoDead? && act.e < |x.written| && x.written[act.e].id in a.kinds ==>
      FitsKind(a.kinds[x.written[act.e].id], act.reason, act.error)
  }

  predicate FitsKind(k: Kind, reason: DeadReason, error: string) {
    k.MustDie() ==> reason == k.Reason() && (k.HangForever? ==> Contains(error, "HandlerTimeout"))
  }

  ghost predicate AllFailAsKind(a: Accepted, states: seq<System>, acts: seq<Action>) {
    |states| == |acts| + 1 && forall i {:trigger acts[i]} :: 0 <= i < |acts| ==> FailsAsKind(a, states[i], acts[i])
  }

  ghost predicate DlqFitsKinds(a: Accepted, dlq: map<EntryId, DeadJob>) {
    forall d :: d in dlq && dlq[d].jobId in a.kinds ==> FitsKind(a.kinds[dlq[d].jobId], dlq[d].reason, dlq[d].error)
  }

  lemma FitNext(s: Settings, a: Accepted, x: System, act: Action, y: System)
    requires Next(s, x, act, y) && FailsAsKind(a, x, act) && DlqFitsKinds(a, x.q.v.dlq)
    ensures DlqFitsKinds(a, y.q.v.dlq)
  {
    match act
    case DoCommit(_, e, _, _) => if x.q.v.HasSucceeded(x.written[e].id) {} else {}
    case DoDead(w, e, _, _, _, _, _) =>
      match DeadOutcome(x.q, w, e, x.written[e].id) {
        case LeaseLost => case TerminalState => case EntryMissing => case Ok =>
      }
    case DoRequeue(j) => if RequeueOutcomeOf(x.q.v, j).Requeued? {} else {}
    case _ => Guarantees.VerdictsFrame(s, x, act, y);
  }

  lemma FitStep(s: Settings, a: Accepted, states: seq<System>, acts: seq<Action>, i: nat)
    requires IsRun(s, states, acts) && i < |acts| && FailsAsKind(a, states[i], acts[i]) && DlqFitsKinds(a, states[i].q.v.dlq)
    ensures DlqFitsKinds(a, states[i + 1].q.v.dlq)
  {
    StepOf(s, states, acts, i);
    FitNext(s, a, states[i], acts[i], states[i + 1]);
  }

  lemma FitAtFirst(s: Settings, a: Accepted, states: seq<System>, acts: seq<Action>)
    requires IsRun(s, states, acts)
    ensures DlqFitsKinds(a, states[0].q.v.dlq)
  {
    assert IsInit(states[0]);
  }

  lemma {:induction false} AlwaysFits(s: Settings, a: Accepted, states: seq<System>, acts: seq<Action>, i: nat)
    requires IsRun(s, states, acts) && AllFailAsKind(a, states, acts) && i < |states|
    ensures DlqFitsKinds(a, states[i].q.v.dlq)
    decreases i
  {
    if i == 0 {
      FitAtFirst(s, a, states, acts);
    } else {
      AlwaysFits(s, a, states, acts, i - 1);
      FitStep(s, a, states, acts, i - 1);
    }
  }

  lemma {:induction false} ReadIsDlq(dlq: map<EntryId, DeadJob>, upto: EntryId, d: DeadJob)
    requires d in Read(dlq, upto)
    ensures exists e :: e in dlq && dlq[e] == d
    decreases upto
  {
    if upto > 0 && d in Read(dlq, upto - 1) {
      ReadIsDlq(dlq, upto - 1, d);
    }
  }

  lemma DeadAsMeant(s: Settings, maxAttempts: nat, a: Accepted, q: Queue, limits: Limits)
    requires DlqFitsKinds(a, q.v.dlq) && Workers.AllDeadRightly(s, maxAttempts, q.v.dlq)
    requires limits.maxAttempts == maxAttempts && limits.maxDeliveries == s.maxDeliveries
    ensures DiedAsMeant(a, EvidenceIn(q), limits)
  {
    var ev := EvidenceIn(q);
    forall d | d in ev.dlq && d.jobId in a.kinds && a.kinds[d.jobId].MustDie()
      ensures DiedWell(a.kinds[d.jobId], d, limits)
    {
      ReadIsDlq(q.v.dlq, q.v.nextDead, d);
      var e :| e in q.v.dlq && q.v.dlq[e] == d;
      assert Workers.DeadRightly(s, maxAttempts, q.v.dlq[e]);
    }
  }

  /** And the run passes the verifier when its workers decide as the source's do and its handlers fail as
      their kinds do. */
  lemma DrainedRunVerifies(s: Settings, maxAttempts: nat, a: Accepted, states: seq<System>, acts: seq<Action>)
    requires 1 <= maxAttempts && IsRun(s, states, acts) && KindsFit(s, a, states[|acts|].accepted)
    requires var q := states[|acts|].q; q.g.stream == map[] && q.delayed == map[] && q.stats.lateSuccesses == 0
    requires forall j :: j in a.kinds ==> (states[|acts|].q.v.IsDead(j) <==> a.kinds[j].MustDie())
    requires Workers.AllFollow(s, maxAttempts, states, acts) && AllFailAsKind(a, states, acts)
    ensures Passes(a, EvidenceIn(states[|acts|].q), Limits(maxAttempts, s.maxDeliveries, None, None))
  {
    var limits := Limits(maxAttempts, s.maxDeliveries, None, None);
    DrainedRunPasses(s, a, states, acts);
    Workers.DlqTellsTrue(s, maxAttempts, states, acts, |acts|);
    AlwaysFits(s, a, states, acts, |acts|);
    DeadAsMeant(s, maxAttempts, a, states[|acts|].q, limits);
  }
}
