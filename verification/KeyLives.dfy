/** Why an accepted TTL is long enough (`Settings.check_ttl_covers`, ADR-010): in every run of the queue
    whose calls come within the timed lives of `Lifetime`, expiring keys cost no guarantee. */
module KeyLives {
  import opened QueueTypes
  import opened Scripts
  import opened Protocol
  import opened Guarantees
  import opened Expiry
  import Lifetime

  /** The clock, in seconds, at every step: it never goes back. */
  ghost predicate Timed(moves: seq<Move>, times: seq<real>) {
    && |times| == |moves|
    && (forall i, k :: 0 <= i <= k < |times| ==> times[i] <= times[k])
    && forall i :: 0 <= i < |moves| && moves[i].Does? && TimeOf(moves[i].a).Some? ==>
         times[i] == TimeOf(moves[i].a).value as real / 1000.0
  }

  predicate Enqueues(s: Settings, p: Fading, m: Move, j: JobId) {
    m.Does? && m.a.DoEnqueue? && m.a.job.id == j && Admit(s, p.x.q, m.a.job, m.a.key).Added?
  }

  predicate Requeues(p: Fading, m: Move, j: JobId) {
    m.Does? && m.a.DoRequeue? && m.a.j == j && RequeueOutcomeOf(p.x.q.v, j).Requeued?
  }

  /** A copy of the job is put on the stream afresh. */
  predicate Bears(s: Settings, p: Fading, m: Move, j: JobId) {
    Enqueues(s, p, m, j) || Requeues(p, m, j)
  }

  /** A call that reads a key which may expire: a commit, a DLQ move, an effect. */
  predicate Concerns(p: Fading, m: Move, j: JobId) {
    && m.Does? && (m.a.DoCommit? || m.a.DoDead? || m.a.DoEffect?)
    && m.a.e < |p.x.written| && p.x.written[m.a.e].id == j
  }

  /** A run, and when its steps were taken. */
  datatype Story = Story(states: seq<Fading>, moves: seq<Move>, times: seq<real>)
  {
    ghost predicate Valid(s: Settings) {
      IsFadingRun(s, states, moves) && Timed(moves, times)
    }

    /** The `i`-th step is taken within some delivery of a copy of `j` that was born before. */
    ghost predicate InALife(s: Settings, k: Lifetime.Timing, i: nat, j: JobId)
      requires |states| > |moves| == |times| && i < |moves|
    {
      exists b: nat, life: seq<Lifetime.Delivery>, d: nat ::
        b < i && Bears(s, states[b], moves[b], j) && IsWithin(k, times[b], life, d, times[i])
    }

    /** Every call about a job comes within such a delivery. */
    ghost predicate CallsInTime(s: Settings, k: Lifetime.Timing)
      requires |states| > |moves| == |times|
    {
      forall i: nat, j: JobId :: i < |moves| && Concerns(states[i], moves[i], j) ==> InALife(s, k, i, j)
    }

    /** A key lasts for its TTL after it was written; TTL 0 means for ever. */
    ghost predicate RecordsLast(ttl: real)
      requires |states| > |moves| == |times|
    {
      forall m: nat, i: nat, j: JobId :: m < i < |moves| && LogsResult(states[m], moves[m], j) && moves[i] == Expires(j) ==>
        ttl != 0.0 && times[m] + ttl <= times[i]
    }

    ghost predicate MarkersLast(s: Settings, ttl: real)
      requires |states| > |moves| == |times|
    {
      forall m: nat, i: nat, k: EffectKey :: m < i < |moves| && LogsEffect(s, states[m], moves[m], k) && moves[i] == Fades(k) ==>
        ttl != 0.0 && times[m] + ttl <= times[i]
    }

    /** An enqueue of a job that has succeeded is re-sent within `window`. */
    ghost predicate ResendsInTime(s: Settings, window: real)
      requires |states| > |moves| == |times|
    {
      forall m: nat, b: nat, j: JobId :: m < b < |moves| && LogsResult(states[m], moves[m], j) && Enqueues(s, states[b], moves[b], j) ==>
        times[b] <= times[m] + window
    }

    /** A job whose effect has happened is put on the stream again, re-sent or requeued, within `window`. */
    ghost predicate RebirthsInTime(s: Settings, window: real)
      requires |states| > |moves| == |times|
    {
      forall m: nat, b: nat, k: EffectKey :: m < b < |moves| && LogsEffect(s, states[m], moves[m], k) && Bears(s, states[b], moves[b], k.job) ==>
        times[b] <= times[m] + window
    }
  }

  ghost predicate IsWithin(k: Lifetime.Timing, born: real, life: seq<Lifetime.Delivery>, d: nat, t: real) {
    Lifetime.IsLife(k, life) && d < |life| && born + life[d].start <= t <= born + life[d].end
  }

  /** How long after a key was written a copy may still be born: nine tenths of the margin. */
  predicate IsWindow(k: Lifetime.Timing, window: real) {
    0.0 <= window < (Lifetime.TTL_MARGIN - 1.0) * k.Bound()
  }

  /** Whoever is born within the window of a key is over before it expires. */
  lemma OverBefore(k: Lifetime.Timing, ttl: real, window: real, written: real, born: real, life: seq<Lifetime.Delivery>, d: nat, t: real)
    requires k.Valid() && k.TtlAccepted(ttl) && ttl != 0.0 && IsWindow(k, window)
    requires IsWithin(k, born, life, d, t) && born <= written + window
    ensures t < written + ttl
  {
    Lifetime.EndsInTime(k, life, d);
    assert (Lifetime.TTL_MARGIN - 1.0) * k.Bound() + k.Bound() == Lifetime.TTL_MARGIN * k.Bound();
  }

  // ---------------------------------------------------------------- results

  lemma {:induction false} LoggedBefore(states: seq<Fading>, moves: seq<Move>, i: nat, j: JobId) returns (m: nat)
    requires i <= |moves| <= |states| && ResultsLogged(states, moves, i, j) > 0
    ensures m < i && LogsResult(states[m], moves[m], j)
    decreases i
  {
    if LogsResult(states[i - 1], moves[i - 1], j) {
      m := i - 1;
    } else {
      m := LoggedBefore(states, moves, i - 1, j);
    }
  }

  lemma StillTallied(states: seq<Fading>, moves: seq<Move>, m: nat, i: nat, j: JobId)
    requires ResultsTally(states, moves, j) && m < i <= |moves| && LogsResult(states[m], moves[m], j)
    ensures HasResult(states[i], j)
  {
    ResultsOnlyGrow(states, moves, m + 1, i, j);
    assert ResultsLogged(states, moves, i, j) > 0;
  }

  lemma ResultStays(s: Settings, states: seq<Fading>, moves: seq<Move>, m: nat, i: nat, j: JobId)
    requires IsFadingRun(s, states, moves) && m < i <= |moves| && LogsResult(states[m], moves[m], j)
    ensures HasResult(states[i], j)
  {
    RunsLog(s, states, moves);
    ResultsAlways(s, states, moves, j);
    StillTallied(states, moves, m, i, j);
  }

  lemma GoneStep(s: Settings, states: seq<Fading>, moves: seq<Move>, i: nat, j: JobId)
    requires IsFadingRun(s, states, moves) && i < |moves|
    ensures j in states[i + 1].gone ==> j in states[i].gone || (moves[i] == Expires(j) && HasResult(states[i], j))
    ensures j in states[i].gone ==> j in states[i + 1].gone
  {
    MoveOf(s, states, moves, i);
  }

  /** A record that has expired was written, and then expired. */
  lemma {:induction false} ExpiredBefore(s: Settings, states: seq<Fading>, moves: seq<Move>, i: nat, j: JobId) returns (m: nat, x: nat)
    requires IsFadingRun(s, states, moves) && i <= |moves| && j in states[i].gone
    ensures m < x < i && LogsResult(states[m], moves[m], j) && moves[x] == Expires(j)
    decreases i
  {
    RunsLog(s, states, moves);
    if i == 0 {
      assert false;
    } else {
      GoneStep(s, states, moves, i - 1, j);
      if j in states[i - 1].gone {
        m, x := ExpiredBefore(s, states, moves, i - 1, j);
      } else {
        ResultsSoFar(s, states, moves, i - 1, j);
        m := LoggedBefore(states, moves, i - 1, j);
        x := i - 1;
      }
    }
  }

  /** A commit or DLQ move of a job whose record has expired. */
  predicate Offends(p: Fading, m: Move) {
    m.Does? && (m.a.DoCommit? || m.a.DoDead?) && m.a.e < |p.x.written| && p.x.written[m.a.e].id in p.gone
  }

  ghost predicate NoneOffends(states: seq<Fading>, moves: seq<Move>, i: nat)
    requires i <= |moves| <= |states|
  {
    forall k {:trigger moves[k]} :: 0 <= k < i ==> !Offends(states[k], moves[k])
  }

  /** While nobody offends, a job whose record has expired has no record. */
  ghost predicate GoneClean(p: Fading) {
    forall j :: j in p.gone ==> j !in p.x.q.v.done
  }

  lemma GoneCleanStep(s: Settings, p: Fading, m: Move, r: Fading)
    requires Moves(s, p, m, r) && !Offends(p, m) && GoneClean(p)
    ensures GoneClean(r)
  {
    if m.Does? {
      var a := m.a;
      match a {
        case DoCommit(_, e, _, _) => if p.x.q.v.HasSucceeded(p.x.written[e].id) {} else {}
        case DoDead(w, e, _, _, _, _, _) =>
          match DeadOutcome(p.x.q, w, e, p.x.written[e].id) {
            case LeaseLost => case TerminalState => case EntryMissing => case Ok =>
          }
        case DoRequeue(job) => if RequeueOutcomeOf(p.x.q.v, job).Requeued? {} else {}
        case _ => VerdictsFrame(s, p.x, a, r.x);
      }
    }
  }

  lemma GoneCleanAt(s: Settings, states: seq<Fading>, moves: seq<Move>, i: nat)
    requires IsFadingRun(s, states, moves) && i < |moves| && !Offends(states[i], moves[i]) && GoneClean(states[i])
    ensures GoneClean(states[i + 1])
  {
    MoveOf(s, states, moves, i);
    GoneCleanStep(s, states[i], moves[i], states[i + 1]);
  }

  lemma GoneCleanAtFirst(s: Settings, states: seq<Fading>, moves: seq<Move>)
    requires IsFadingRun(s, states, moves)
    ensures GoneClean(states[0])
  {
    assert IsStart(states[0]);
  }

  lemma NoOffence(states: seq<Fading>, moves: seq<Move>, i: nat)
    requires i < |moves| <= |states| && NoneOffends(states, moves, i + 1)
    ensures !Offends(states[i], moves[i]) && NoneOffends(states, moves, i)
  {
  }

  lemma {:induction false} StaysClean(s: Settings, states: seq<Fading>, moves: seq<Move>, i: nat)
    requires IsFadingRun(s, states, moves) && i <= |moves| && NoneOffends(states, moves, i)
    ensures GoneClean(states[i])
    decreases i
  {
    if i == 0 {
      GoneCleanAtFirst(s, states, moves);
    } else {
      NoOffence(states, moves, i - 1);
      StaysClean(s, states, moves, i - 1);
      GoneCleanAt(s, states, moves, i - 1);
    }
  }

  /** A job that has succeeded is not requeued. */
  lemma NotRequeued(s: Settings, states: seq<Fading>, moves: seq<Move>, m: nat, b: nat, j: JobId)
    requires IsFadingRun(s, states, moves) && m < b < |moves| && LogsResult(states[m], moves[m], j) && NoneOffends(states, moves, b)
    ensures !Requeues(states[b], moves[b], j)
  {
    ResultStays(s, states, moves, m, b, j);
    StaysClean(s, states, moves, b);
  }

  /** A call in time comes before the record of its job expires. */
  lemma InTimeNotGone(s: Settings, k: Lifetime.Timing, ttl: real, window: real, r: Story, i: nat, j: JobId)
    requires r.Valid(s) && k.Valid() && k.TtlAccepted(ttl) && IsWindow(k, window) && i < |r.moves|
    requires r.CallsInTime(s, k) && r.RecordsLast(ttl) && r.ResendsInTime(s, window)
    requires Concerns(r.states[i], r.moves[i], j) && NoneOffends(r.states, r.moves, i)
    ensures j !in r.states[i].gone
  {
    if j in r.states[i].gone {
      var m, x := ExpiredBefore(s, r.states, r.moves, i, j);
      assert r.times[m] + ttl <= r.times[x] <= r.times[i] && ttl != 0.0;
      assert r.InALife(s, k, i, j);
      var b: nat, life: seq<Lifetime.Delivery>, d: nat :|
        b < i && Bears(s, r.states[b], r.moves[b], j) && IsWithin(k, r.times[b], life, d, r.times[i]);
      BornInTime(s, window, r, m, b, i, j);
      OverBefore(k, ttl, window, r.times[m], r.times[b], life, d, r.times[i]);
      assert false;
    }
  }

  lemma BornInTime(s: Settings, window: real, r: Story, m: nat, b: nat, i: nat, j: JobId)
    requires r.Valid(s) && 0.0 <= window && r.ResendsInTime(s, window) && m < |r.moves| && b < i < |r.moves| && NoneOffends(r.states, r.moves, i)
    requires LogsResult(r.states[m], r.moves[m], j) && Bears(s, r.states[b], r.moves[b], j)
    ensures r.times[b] <= r.times[m] + window
  {
    if m < b {
      assert NoneOffends(r.states, r.moves, b);
      NotRequeued(s, r.states, r.moves, m, b, j);
      assert Enqueues(s, r.states[b], r.moves[b], j);
    }
  }

  lemma OffendersConcern(p: Fading, m: Move)
    requires Offends(p, m)
    ensures Concerns(p, m, p.x.written[m.a.e].id) && p.x.written[m.a.e].id in p.gone
  {
  }

  lemma {:induction false} NobodyOffends(s: Settings, k: Lifetime.Timing, ttl: real, window: real, r: Story, i: nat)
    requires r.Valid(s) && k.Valid() && k.TtlAccepted(ttl) && IsWindow(k, window) && i <= |r.moves|
    requires r.CallsInTime(s, k) && r.RecordsLast(ttl) && r.ResendsInTime(s, window)
    ensures NoneOffends(r.states, r.moves, i)
    decreases i
  {
    if i > 0 {
      NobodyOffends(s, k, ttl, window, r, i - 1);
      NextIsInTime(s, k, ttl, window, r, i - 1);
      OneMore(r.states, r.moves, i - 1);
    }
  }

  lemma OneMore(states: seq<Fading>, moves: seq<Move>, i: nat)
    requires i < |moves| <= |states| && NoneOffends(states, moves, i) && !Offends(states[i], moves[i])
    ensures NoneOffends(states, moves, i + 1)
  {
  }

  lemma NextIsInTime(s: Settings, k: Lifetime.Timing, ttl: real, window: real, r: Story, i: nat)
    requires r.Valid(s) && k.Valid() && k.TtlAccepted(ttl) && IsWindow(k, window) && i < |r.moves|
    requires r.CallsInTime(s, k) && r.RecordsLast(ttl) && r.ResendsInTime(s, window)
    requires NoneOffends(r.states, r.moves, i)
    ensures !Offends(r.states[i], r.moves[i])
  {
    var p, m := r.states[i], r.moves[i];
    if Offends(p, m) {
      OffendersConcern(p, m);
      InTimeNotGone(s, k, ttl, window, r, i, p.x.written[m.a.e].id);
      assert false;
    }
  }

  lemma RepeatsOffend(states: seq<Fading>, moves: seq<Move>, i: nat)
    requires i <= |moves| <= |states| && NoneOffends(states, moves, i)
    ensures NoRepeatedResult(states, moves, i)
  {
    forall k {:trigger moves[k]} | 0 <= k < i ensures !RepeatsResult(states[k], moves[k]) {
      assert !Offends(states[k], moves[k]);
    }
  }

  /** With an accepted TTL, and calls and re-sends in time: however records expire, the results log holds
      each job once if it has succeeded, and not at all otherwise. */
  lemma OneResultInTime(s: Settings, k: Lifetime.Timing, ttl: real, window: real, r: Story, i: nat, j: JobId)
    requires r.Valid(s) && k.Valid() && k.TtlAccepted(ttl) && IsWindow(k, window) && i <= |r.moves|
    requires r.CallsInTime(s, k) && r.RecordsLast(ttl) && r.ResendsInTime(s, window)
    ensures multiset(r.states[i].x.q.v.results)[j] == if HasResult(r.states[i], j) then 1 else 0
  {
    RunsLog(s, r.states, r.moves);
    NobodyOffends(s, k, ttl, window, r, i);
    RepeatsOffend(r.states, r.moves, i);
    ResultsAlways(s, r.states, r.moves, j);
    OnceIfNoRepeat(s, r.states, r.moves, i, j);
    ResultsSoFar(s, r.states, r.moves, i, j);
  }

  // ---------------------------------------------------------------- effects

  lemma {:induction false} EffectBefore(s: Settings, states: seq<Fading>, moves: seq<Move>, i: nat, k: EffectKey) returns (m: nat)
    requires i <= |moves| <= |states| && EffectsLogged(s, states, moves, i, k) > 0
    ensures m < i && LogsEffect(s, states[m], moves[m], k)
    decreases i
  {
    if LogsEffect(s, states[i - 1], moves[i - 1], k) {
      m := i - 1;
    } else {
      m := EffectBefore(s, states, moves, i - 1, k);
    }
  }

  lemma LostStep(s: Settings, states: seq<Fading>, moves: seq<Move>, i: nat, k: EffectKey)
    requires IsFadingRun(s, states, moves) && i < |moves|
    ensures k in states[i + 1].lost ==> k in states[i].lost || (moves[i] == Fades(k) && HasEffect(states[i], k))
  {
    MoveOf(s, states, moves, i);
  }

  lemma {:induction false} FadedBefore(s: Settings, states: seq<Fading>, moves: seq<Move>, i: nat, k: EffectKey) returns (m: nat, x: nat)
    requires IsFadingRun(s, states, moves) && i <= |moves| && k in states[i].lost
    ensures m < x < i && LogsEffect(s, states[m], moves[m], k) && moves[x] == Fades(k)
    decreases i
  {
    RunsLog(s, states, moves);
    if i == 0 {
      assert false;
    } else {
      LostStep(s, states, moves, i - 1, k);
      if k in states[i - 1].lost {
        m, x := FadedBefore(s, states, moves, i - 1, k);
      } else {
        EffectsSoFar(s, states, moves, i - 1, k);
        m := EffectBefore(s, states, moves, i - 1, k);
        x := i - 1;
      }
    }
  }

  /** A call in time comes before its job's marker expires. */
  lemma InTimeNotLost(s: Settings, t: Lifetime.Timing, ttl: real, window: real, r: Story, i: nat, k: EffectKey)
    requires r.Valid(s) && t.Valid() && t.TtlAccepted(ttl) && IsWindow(t, window) && i < |r.moves|
    requires r.CallsInTime(s, t) && r.MarkersLast(s, ttl) && r.RebirthsInTime(s, window)
    requires Concerns(r.states[i], r.moves[i], k.job)
    ensures k !in r.states[i].lost
  {
    if k in r.states[i].lost {
      var m, x := FadedBefore(s, r.states, r.moves, i, k);
      assert r.times[m] + ttl <= r.times[x] <= r.times[i] && ttl != 0.0;
      assert r.InALife(s, t, i, k.job);
      var b: nat, life: seq<Lifetime.Delivery>, d: nat :|
        b < i && Bears(s, r.states[b], r.moves[b], k.job) && IsWithin(t, r.times[b], life, d, r.times[i]);
      assert r.times[b] <= r.times[m] + window;
      OverBefore(t, ttl, window, r.times[m], r.times[b], life, d, r.times[i]);
      assert false;
    }
  }

  lemma RepeatsConcern(s: Settings, p: Fading, m: Move)
    requires RepeatsEffect(s, p, m)
    ensures var k := KeyOfEntry(s, p.x, m.a.e); Concerns(p, m, k.job) && k in p.lost
  {
  }

  lemma NothingRepeats(s: Settings, t: Lifetime.Timing, ttl: real, window: real, r: Story, i: nat)
    requires r.Valid(s) && t.Valid() && t.TtlAccepted(ttl) && IsWindow(t, window) && i <= |r.moves|
    requires r.CallsInTime(s, t) && r.MarkersLast(s, ttl) && r.RebirthsInTime(s, window)
    ensures NoRepeatedEffect(s, r.states, r.moves, i)
  {
    forall n {:trigger r.moves[n]} | 0 <= n < i ensures !RepeatsEffect(s, r.states[n], r.moves[n]) {
      if RepeatsEffect(s, r.states[n], r.moves[n]) {
        RepeatsConcern(s, r.states[n], r.moves[n]);
        InTimeNotLost(s, t, ttl, window, r, n, KeyOfEntry(s, r.states[n].x, r.moves[n].a.e));
      }
    }
  }

  /** And every effect is logged once if its ledger was ever called, and not at all otherwise. */
  lemma OneEffectInTime(s: Settings, t: Lifetime.Timing, ttl: real, window: real, r: Story, i: nat, k: EffectKey)
    requires r.Valid(s) && t.Valid() && t.TtlAccepted(ttl) && IsWindow(t, window) && i <= |r.moves|
    requires r.CallsInTime(s, t) && r.MarkersLast(s, ttl) && r.RebirthsInTime(s, window)
    ensures multiset(r.states[i].x.q.ledger.log)[k] == if HasEffect(r.states[i], k) then 1 else 0
  {
    RunsLog(s, r.states, r.moves);
    NothingRepeats(s, t, ttl, window, r, i);
    EffectsAlways(s, r.states, r.moves, k);
    EffectIfNoRepeat(s, r.states, r.moves, i, k);
    EffectsSoFar(s, r.states, r.moves, i, k);
  }
}
