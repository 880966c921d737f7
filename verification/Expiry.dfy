/** The queue with TTLs: SUCCEEDED records and ledger markers may expire (ADR-010). Exactly when that
    costs the guarantees of one result and one effect. */
module Expiry {
  import opened QueueTypes
  import opened Scripts
  import opened Protocol
  import opened Guarantees
  import opened Behaviors

  /** A system some of whose keys have expired: the jobs whose SUCCEEDED record did, and the markers. */
  datatype Fading = Fading(x: System, gone: set<JobId>, lost: set<EffectKey>)

  datatype Move = Does(a: Action) | Expires(j: JobId) | Fades(k: EffectKey)

  /** What an entry's handler does. */
  function KeyOfEntry(s: Settings, x: System, e: EntryId): EffectKey
    requires e < |x.written| && s.HasEffect(x.written[e].jobType)
  {
    s.KeyOf(x.written[e].jobType, x.written[e].id)
  }

  /** A commit's run has called the ledger, whether or not the marker is still there. */
  predicate EffectCalled(s: Settings, p: Fading, a: Action) {
    a.DoCommit? && a.e < |p.x.written| && s.HasEffect(p.x.written[a.e].jobType) ==>
      KeyOfEntry(s, p.x, a.e) in p.x.q.ledger.marks + p.lost
  }

  /** The settings of a step: what a commit must have done before is `EffectCalled`. */
  function StepSettings(s: Settings, a: Action): Settings {
    if a.DoCommit? then s.(effects := map[]) else s
  }

  ghost predicate Moves(s: Settings, p: Fading, m: Move, r: Fading) {
    match m
    case Does(a) =>
      Next(StepSettings(s, a), p.x, a, r.x) && EffectCalled(s, p, a) && r.gone == p.gone && r.lost == p.lost
    case Expires(j) =>
      && p.x.q.v.HasSucceeded(j)
      && r == Fading(p.x.(q := p.x.q.(v := p.x.q.v.(done := p.x.q.v.done - {j}))), p.gone + {j}, p.lost)
    case Fades(k) =>
      && k in p.x.q.ledger.marks
      && r == Fading(p.x.(q := p.x.q.(ledger := p.x.q.ledger.(marks := p.x.q.ledger.marks - {k}))), p.gone, p.lost + {k})
  }

  predicate IsStart(p: Fading) {
    IsInit(p.x) && p.gone == {} && p.lost == {}
  }

  ghost function MovesOf(s: Settings): (Fading, Move, Fading) -> bool {
    (p, m, r) => Moves(s, p, m, r)
  }

  ghost predicate IsFadingRun(s: Settings, states: seq<Fading>, moves: seq<Move>) {
    IsExecution((p: Fading) => IsStart(p), MovesOf(s), states, moves)
  }

  lemma MoveOf(s: Settings, states: seq<Fading>, moves: seq<Move>, i: nat)
    requires IsFadingRun(s, states, moves) && i < |moves|
    ensures Moves(s, states[i], moves[i], states[i + 1])
  {
    assert MovesOf(s)(states[i], moves[i], states[i + 1]);
  }

  // ---------------------------------------------------------------- what a run logs

  predicate NothingLogged(p: Fading) {
    p.x.q.v.results == [] && p.x.q.v.done == map[] && p.x.q.ledger == Ledger({}, []) && p.gone == {} && p.lost == {}
  }

  /** What a step does to the two logs, and to who has a result or an effect. */
  ghost predicate StepLogs(s: Settings, p: Fading, m: Move, r: Fading) {
    && (forall j ::
          && multiset(r.x.q.v.results)[j] == multiset(p.x.q.v.results)[j] + (if LogsResult(p, m, j) then 1 else 0)
          && (HasResult(r, j) <==> HasResult(p, j) || LogsResult(p, m, j)))
    && (forall k ::
          && multiset(r.x.q.ledger.log)[k] == multiset(p.x.q.ledger.log)[k] + (if LogsEffect(s, p, m, k) then 1 else 0)
          && (HasEffect(r, k) <==> HasEffect(p, k) || LogsEffect(s, p, m, k)))
  }

  ghost predicate RunLogs(s: Settings, states: seq<Fading>, moves: seq<Move>) {
    && |states| == |moves| + 1 && NothingLogged(states[0])
    && forall i {:trigger moves[i]} :: 0 <= i < |moves| ==> StepLogs(s, states[i], moves[i], states[i + 1])
  }

  lemma MoveLogs(s: Settings, states: seq<Fading>, moves: seq<Move>, i: nat)
    requires IsFadingRun(s, states, moves) && i < |moves|
    ensures StepLogs(s, states[i], moves[i], states[i + 1])
  {
    MoveOf(s, states, moves, i);
    var p, m, r := states[i], moves[i], states[i + 1];
    forall j
      ensures multiset(r.x.q.v.results)[j] == multiset(p.x.q.v.results)[j] + if LogsResult(p, m, j) then 1 else 0
      ensures HasResult(r, j) <==> HasResult(p, j) || LogsResult(p, m, j)
    {
      ResultsStep(s, p, m, r, j);
    }
    forall k
      ensures multiset(r.x.q.ledger.log)[k] == multiset(p.x.q.ledger.log)[k] + if LogsEffect(s, p, m, k) then 1 else 0
      ensures HasEffect(r, k) <==> HasEffect(p, k) || LogsEffect(s, p, m, k)
    {
      EffectsStep(s, p, m, r, k);
    }
  }

  lemma StartLogs(s: Settings, states: seq<Fading>, moves: seq<Move>)
    requires IsFadingRun(s, states, moves)
    ensures |states| == |moves| + 1 && NothingLogged(states[0])
  {
    assert IsStart(states[0]);
  }

  lemma RunsLog(s: Settings, states: seq<Fading>, moves: seq<Move>)
    requires IsFadingRun(s, states, moves)
    ensures RunLogs(s, states, moves)
  {
    StartLogs(s, states, moves);
    forall i {:trigger moves[i]} | 0 <= i < |moves| ensures StepLogs(s, states[i], moves[i], states[i + 1]) {
      MoveLogs(s, states, moves, i);
    }
  }

  // ---------------------------------------------------------------- results

  predicate HasResult(p: Fading, j: JobId) {
    p.x.q.v.HasSucceeded(j) || j in p.gone
  }

  /** A commit of a job whose record has expired. */
  predicate RepeatsResult(p: Fading, m: Move) {
    && m.Does? && m.a.DoCommit? && m.a.e < |p.x.written|
    && var j := p.x.written[m.a.e].id; j in p.gone && !p.x.q.v.HasSucceeded(j)
  }

  /** A commit that logs a result of `j`. */
  predicate LogsResult(p: Fading, m: Move, j: JobId) {
    m.Does? && m.a.DoCommit? && m.a.e < |p.x.written| && p.x.written[m.a.e].id == j && !p.x.q.v.HasSucceeded(j)
  }

  lemma CommitResults(s: Settings, p: Fading, a: Action, r: Fading, j: JobId)
    requires Moves(s, p, Does(a), r) && a.DoCommit?
    ensures multiset(r.x.q.v.results)[j] == multiset(p.x.q.v.results)[j] + if LogsResult(p, Does(a), j) then 1 else 0
    ensures HasResult(r, j) <==> HasResult(p, j) || LogsResult(p, Does(a), j)
  {
    if p.x.q.v.HasSucceeded(p.x.written[a.e].id) {} else {}
  }

  lemma OtherResults(s: Settings, p: Fading, a: Action, r: Fading, j: JobId)
    requires Moves(s, p, Does(a), r) && !a.DoCommit?
    ensures r.x.q.v.results == p.x.q.v.results && (HasResult(r, j) <==> HasResult(p, j))
  {
    match a {
      case DoDead(w, e, _, _, _, _, _) =>
        match DeadOutcome(p.x.q, w, e, p.x.written[e].id) {
          case LeaseLost => case TerminalState => case EntryMissing => case Ok =>
        }
      case DoRequeue(job) => if RequeueOutcomeOf(p.x.q.v, job).Requeued? {} else {}
      case _ => VerdictsFrame(s, p.x, a, r.x);
    }
  }

  /** What a step does to the results log, and to who has a result. */
  lemma ResultsStep(s: Settings, p: Fading, m: Move, r: Fading, j: JobId)
    requires Moves(s, p, m, r)
    ensures multiset(r.x.q.v.results)[j] == multiset(p.x.q.v.results)[j] + if LogsResult(p, m, j) then 1 else 0
    ensures HasResult(r, j) <==> HasResult(p, j) || LogsResult(p, m, j)
  {
    if m.Does? {
      if m.a.DoCommit? {
        CommitResults(s, p, m.a, r, j);
      } else {
        OtherResults(s, p, m.a, r, j);
      }
    }
  }

  /** How many steps of a run so far logged a result of `j`. */
  ghost function ResultsLogged(states: seq<Fading>, moves: seq<Move>, i: nat, j: JobId): nat
    requires i <= |moves| <= |states|
  {
    if i == 0 then 0 else ResultsLogged(states, moves, i - 1, j) + if LogsResult(states[i - 1], moves[i - 1], j) then 1 else 0
  }

  /** The log holds what was logged, and whoever has a result, expired or not, is in it. */
  lemma {:induction false} ResultsSoFar(s: Settings, states: seq<Fading>, moves: seq<Move>, i: nat, j: JobId)
    requires RunLogs(s, states, moves) && i <= |moves|
    ensures multiset(states[i].x.q.v.results)[j] == ResultsLogged(states, moves, i, j)
    ensures HasResult(states[i], j) <==> ResultsLogged(states, moves, i, j) > 0
    decreases i
  {
    if i > 0 {
      ResultsSoFar(s, states, moves, i - 1, j);
      assert StepLogs(s, states[i - 1], moves[i - 1], states[i]);
    }
  }

  /** Whoever has a result, expired or not, is one of whom a result was logged. */
  ghost predicate ResultsTally(states: seq<Fading>, moves: seq<Move>, j: JobId) {
    |states| == |moves| + 1 &&
    forall i: nat {:trigger ResultsLogged(states, moves, i, j)} :: i <= |moves| ==> (HasResult(states[i], j) <==> ResultsLogged(states, moves, i, j) > 0)
  }

  lemma ResultsAlways(s: Settings, states: seq<Fading>, moves: seq<Move>, j: JobId)
    requires RunLogs(s, states, moves)
    ensures ResultsTally(states, moves, j)
  {
    forall i: nat | i <= |moves| ensures HasResult(states[i], j) <==> ResultsLogged(states, moves, i, j) > 0 {
      ResultsSoFar(s, states, moves, i, j);
    }
  }

  lemma {:induction false} ResultsOnlyGrow(states: seq<Fading>, moves: seq<Move>, i: nat, k: nat, j: JobId)
    requires i <= k <= |moves| <= |states|
    ensures ResultsLogged(states, moves, i, j) <= ResultsLogged(states, moves, k, j)
    decreases k
  {
    if i < k {
      ResultsOnlyGrow(states, moves, i, k - 1, j);
    }
  }

  ghost predicate NoRepeatedResult(states: seq<Fading>, moves: seq<Move>, i: nat)
    requires i <= |moves| <= |states|
  {
    forall k {:trigger moves[k]} :: 0 <= k < i ==> !RepeatsResult(states[k], moves[k])
  }

  lemma NoRepeatBefore(s: Settings, states: seq<Fading>, moves: seq<Move>, i: nat)
    requires i < |moves| <= |states| && NoRepeatedResult(states, moves, i + 1)
    ensures NoRepeatedResult(states, moves, i)
  {
  }

  lemma {:induction false} OnceIfNoRepeat(s: Settings, states: seq<Fading>, moves: seq<Move>, i: nat, j: JobId)
    requires ResultsTally(states, moves, j) && i <= |moves| && NoRepeatedResult(states, moves, i)
    ensures ResultsLogged(states, moves, i, j) <= 1
    decreases i
  {
    if i > 0 {
      NoRepeatBefore(s, states, moves, i - 1);
      OnceIfNoRepeat(s, states, moves, i - 1, j);
      OnceNext(states, moves, i - 1, j);
    }
  }

  lemma OnceNext(states: seq<Fading>, moves: seq<Move>, i: nat, j: JobId)
    requires i < |moves| < |states| && NoRepeatedResult(states, moves, i + 1)
    requires ResultsLogged(states, moves, i, j) <= 1 && (HasResult(states[i], j) <==> ResultsLogged(states, moves, i, j) > 0)
    ensures ResultsLogged(states, moves, i + 1, j) <= 1
  {
    assert !RepeatsResult(states[i], moves[i]);
  }

  lemma TwiceIfRepeat(s: Settings, states: seq<Fading>, moves: seq<Move>, k: nat, i: nat) returns (j: JobId)
    requires RunLogs(s, states, moves) && k < i <= |moves| && RepeatsResult(states[k], moves[k])
    ensures ResultsLogged(states, moves, i, j) >= 2
  {
    j := states[k].x.written[moves[k].a.e].id;
    ResultsSoFar(s, states, moves, k, j);
    ResultsOnlyGrow(states, moves, k + 1, i, j);
  }

  /** However keys expire: every job has at most one result exactly if no commit came after its job's
      record had expired. */
  lemma OneResultIff(s: Settings, states: seq<Fading>, moves: seq<Move>, i: nat)
    requires IsFadingRun(s, states, moves) && i <= |moves|
    ensures (forall j :: multiset(states[i].x.q.v.results)[j] <= 1) <==> NoRepeatedResult(states, moves, i)
  {
    RunsLog(s, states, moves);
    if NoRepeatedResult(states, moves, i) {
      forall j ensures multiset(states[i].x.q.v.results)[j] <= 1 {
        ResultsAlways(s, states, moves, j);
        OnceIfNoRepeat(s, states, moves, i, j);
        ResultsSoFar(s, states, moves, i, j);
      }
    } else {
      var k :| 0 <= k < i && RepeatsResult(states[k], moves[k]);
      var j := TwiceIfRepeat(s, states, moves, k, i);
      ResultsSoFar(s, states, moves, i, j);
    }
  }

  // ---------------------------------------------------------------- effects

  predicate HasEffect(p: Fading, k: EffectKey) {
    k in p.x.q.ledger.marks || k in p.lost
  }

  /** A call of the ledger that logs an effect under `k`. */
  predicate LogsEffect(s: Settings, p: Fading, m: Move, k: EffectKey) {
    && m.Does? && m.a.DoEffect? && m.a.e < |p.x.written| && s.HasEffect(p.x.written[m.a.e].jobType)
    && KeyOfEntry(s, p.x, m.a.e) == k && k !in p.x.q.ledger.marks
  }

  /** A call of the ledger whose marker has expired. */
  predicate RepeatsEffect(s: Settings, p: Fading, m: Move) {
    && m.Does? && m.a.DoEffect? && m.a.e < |p.x.written| && s.HasEffect(p.x.written[m.a.e].jobType)
    && var k := KeyOfEntry(s, p.x, m.a.e); k in p.lost && k !in p.x.q.ledger.marks
  }

  lemma LedgerFrame(s: Settings, x: System, a: Action, y: System)
    requires Next(s, x, a, y) && !a.DoEffect?
    ensures y.q.ledger == x.q.ledger
  {
    match a
    case DoEnqueue(job, key, _) => if Admit(s, x.q, job, key).Added? {} else if Admit(s, x.q, job, key).Refused? {} else {}
    case DoHeartbeat(w, e, _) => if Owns(x.q.g, w, e) {} else {}
    case DoCommit(_, e, _, _) => if x.q.v.HasSucceeded(x.written[e].id) {} else {}
    case DoRetry(w, e, _, _, _) =>
      match RetryOutcome(x.q, w, e, x.written[e].id) {
        case LeaseLost => case TerminalState => case EntryMissing => case Ok =>
      }
    case DoDead(w, e, _, _, _, _, _) =>
      match DeadOutcome(x.q, w, e, x.written[e].id) {
        case LeaseLost => case TerminalState => case EntryMissing => case Ok =>
      }
    case DoSchedule(_, due, _) => ScheduleFrame(x.q, due);
    case DoRequeue(j) => if RequeueOutcomeOf(x.q.v, j).Requeued? {} else {}
    case _ =>
  }

  lemma EffectsStep(s: Settings, p: Fading, m: Move, r: Fading, k: EffectKey)
    requires Moves(s, p, m, r)
    ensures multiset(r.x.q.ledger.log)[k] == multiset(p.x.q.ledger.log)[k] + if LogsEffect(s, p, m, k) then 1 else 0
    ensures HasEffect(r, k) <==> HasEffect(p, k) || LogsEffect(s, p, m, k)
  {
    if m.Does? {
      if m.a.DoEffect? {
        if KeyOfEntry(s, p.x, m.a.e) in p.x.q.ledger.marks {} else {}
      } else {
        LedgerFrame(StepSettings(s, m.a), p.x, m.a, r.x);
      }
    }
  }

  /** How many steps of a run so far logged an effect under `k`. */
  ghost function EffectsLogged(s: Settings, states: seq<Fading>, moves: seq<Move>, i: nat, k: EffectKey): nat
    requires i <= |moves| <= |states|
  {
    if i == 0 then 0 else EffectsLogged(s, states, moves, i - 1, k) + if LogsEffect(s, states[i - 1], moves[i - 1], k) then 1 else 0
  }

  /** The log holds what was logged, and every marker, expired or not, is in it. */
  lemma {:induction false} EffectsSoFar(s: Settings, states: seq<Fading>, moves: seq<Move>, i: nat, k: EffectKey)
    requires RunLogs(s, states, moves) && i <= |moves|
    ensures multiset(states[i].x.q.ledger.log)[k] == EffectsLogged(s, states, moves, i, k)
    ensures HasEffect(states[i], k) <==> EffectsLogged(s, states, moves, i, k) > 0
    decreases i
  {
    if i > 0 {
      EffectsSoFar(s, states, moves, i - 1, k);
      assert StepLogs(s, states[i - 1], moves[i - 1], states[i]);
    }
  }

  ghost predicate EffectsTally(s: Settings, states: seq<Fading>, moves: seq<Move>, k: EffectKey) {
    |states| == |moves| + 1 &&
    forall i: nat {:trigger EffectsLogged(s, states, moves, i, k)} :: i <= |moves| ==> (HasEffect(states[i], k) <==> EffectsLogged(s, states, moves, i, k) > 0)
  }

  lemma EffectsAlways(s: Settings, states: seq<Fading>, moves: seq<Move>, k: EffectKey)
    requires RunLogs(s, states, moves)
    ensures EffectsTally(s, states, moves, k)
  {
    forall i: nat | i <= |moves| ensures HasEffect(states[i], k) <==> EffectsLogged(s, states, moves, i, k) > 0 {
      EffectsSoFar(s, states, moves, i, k);
    }
  }

  lemma {:induction false} EffectsOnlyGrow(s: Settings, states: seq<Fading>, moves: seq<Move>, i: nat, m: nat, k: EffectKey)
    requires i <= m <= |moves| <= |states|
    ensures EffectsLogged(s, states, moves, i, k) <= EffectsLogged(s, states, moves, m, k)
    decreases m
  {
    if i < m {
      EffectsOnlyGrow(s, states, moves, i, m - 1, k);
    }
  }

  ghost predicate NoRepeatedEffect(s: Settings, states: seq<Fading>, moves: seq<Move>, i: nat)
    requires i <= |moves| <= |states|
  {
    forall k {:trigger moves[k]} :: 0 <= k < i ==> !RepeatsEffect(s, states[k], moves[k])
  }

  lemma EffectNext(s: Settings, states: seq<Fading>, moves: seq<Move>, i: nat, k: EffectKey)
    requires i < |moves| < |states| && NoRepeatedEffect(s, states, moves, i + 1)
    requires EffectsLogged(s, states, moves, i, k) <= 1 && (HasEffect(states[i], k) <==> EffectsLogged(s, states, moves, i, k) > 0)
    ensures EffectsLogged(s, states, moves, i + 1, k) <= 1
  {
    assert !RepeatsEffect(s, states[i], moves[i]);
  }

  lemma NoEffectRepeatBefore(s: Settings, states: seq<Fading>, moves: seq<Move>, i: nat)
    requires i < |moves| <= |states| && NoRepeatedEffect(s, states, moves, i + 1)
    ensures NoRepeatedEffect(s, states, moves, i)
  {
  }

  lemma {:induction false} EffectIfNoRepeat(s: Settings, states: seq<Fading>, moves: seq<Move>, i: nat, k: EffectKey)
    requires EffectsTally(s, states, moves, k) && i <= |moves| && NoRepeatedEffect(s, states, moves, i)
    ensures EffectsLogged(s, states, moves, i, k) <= 1
    decreases i
  {
    if i > 0 {
      NoEffectRepeatBefore(s, states, moves, i - 1);
      EffectIfNoRepeat(s, states, moves, i - 1, k);
      EffectNext(s, states, moves, i - 1, k);
    }
  }

  lemma EffectTwiceIfRepeat(s: Settings, states: seq<Fading>, moves: seq<Move>, m: nat, i: nat) returns (k: EffectKey)
    requires RunLogs(s, states, moves) && m < i <= |moves| && RepeatsEffect(s, states[m], moves[m])
    ensures EffectsLogged(s, states, moves, i, k) >= 2
  {
    k := KeyOfEntry(s, states[m].x, moves[m].a.e);
    EffectsSoFar(s, states, moves, m, k);
    EffectsOnlyGrow(s, states, moves, m + 1, i, k);
  }

  /** Whoever has succeeded has had its effect, whatever has expired since. */
  lemma ResultHasEffect(s: Settings, states: seq<Fading>, moves: seq<Move>, m: nat, i: nat, j: JobId)
    requires IsFadingRun(s, states, moves) && m < i <= |moves| && LogsResult(states[m], moves[m], j)
    ensures var x := states[m].x;
            && moves[m].a.e < |x.written| && x.written[moves[m].a.e].id == j
            && (s.HasEffect(x.written[moves[m].a.e].jobType) ==> multiset(states[i].x.q.ledger.log)[KeyOfEntry(s, x, moves[m].a.e)] >= 1)
  {
    RunsLog(s, states, moves);
    var p, e := states[m], moves[m].a.e;
    if s.HasEffect(p.x.written[e].jobType) {
      CommitCalled(s, states, moves, m);
      var k := KeyOfEntry(s, p.x, e);
      EffectsSoFar(s, states, moves, m, k);
      EffectsOnlyGrow(s, states, moves, m, i, k);
      EffectsSoFar(s, states, moves, i, k);
    }
  }

  lemma CommitCalled(s: Settings, states: seq<Fading>, moves: seq<Move>, m: nat)
    requires IsFadingRun(s, states, moves) && m < |moves| && moves[m].Does?
    ensures EffectCalled(s, states[m], moves[m].a)
  {
    MoveOf(s, states, moves, m);
  }

  /** However keys expire: every effect is logged at most once exactly if no call of the ledger came
      after its marker had expired. */
  lemma OneEffectIff(s: Settings, states: seq<Fading>, moves: seq<Move>, i: nat)
    requires IsFadingRun(s, states, moves) && i <= |moves|
    ensures (forall k :: multiset(states[i].x.q.ledger.log)[k] <= 1) <==> NoRepeatedEffect(s, states, moves, i)
  {
    RunsLog(s, states, moves);
    if NoRepeatedEffect(s, states, moves, i) {
      forall k ensures multiset(states[i].x.q.ledger.log)[k] <= 1 {
        EffectsAlways(s, states, moves, k);
        EffectIfNoRepeat(s, states, moves, i, k);
        EffectsSoFar(s, states, moves, i, k);
      }
    } else {
      var m :| 0 <= m < i && RepeatsEffect(s, states[m], moves[m]);
      var k := EffectTwiceIfRepeat(s, states, moves, m, i);
      EffectsSoFar(s, states, moves, i, k);
    }
  }
}
