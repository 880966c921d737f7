/** What an expired ledger marker costs: a dead job that is requeued after it repeats its effect, although
    every call comes in time. */
module LateRequeue {
  import opened QueueTypes
  import opened Scripts
  import opened Protocol
  import opened Invariants
  import opened Expiry
  import opened KeyLives
  import Scenarios
  import Lifetime

  const JOB := Scenarios.JOB

  /** The effect of the job. */
  function Key(s: Settings): EffectKey
    requires s.HasEffect(0)
  {
    s.KeyOf(0, 0)
  }

  // ---------------------------------------------------------------- the queue's steps

  /** The job's only entry is `e`, and is read or not. */
  ghost predicate Streamed(x: System, e: EntryId, read: bool) {
    && GroupOk(x.q.g) && x.q.g.nextId == e + 1 && x.q.g.stream == map[e := JOB] && x.q.g.delivered == (if read then e + 1 else e)
    && |x.written| == e + 1 && x.written[e] == JOB && x.accepted == map[0 := 0]
    && (read ==> e in x.q.g.pel && x.q.g.pel[e].owner == 1 && (1, e) in x.holders)
  }

  lemma Added(s: Settings, x: System) returns (y: System)
    requires s.Valid() && IsInit(x)
    ensures Next(s, x, Scenarios.ADD, y) && Streamed(y, 0, false) && y.q.v == x.q.v && y.q.ledger == x.q.ledger
  {
    assert Admit(s, x.q, JOB, None).Added?;
    y := Observe(x, Enqueue(s, x.q, JOB, None, CountRejected))
         .(written := x.written + [JOB], accepted := x.accepted[0 := 0], enqueued := x.enqueued + 1);
  }

  lemma Read(s: Settings, x: System, e: EntryId, now: int) returns (y: System)
    requires Streamed(x, e, false)
    ensures Next(s, x, DoFetch(1, 1, now), y) && Streamed(y, e, true) && y.q.v == x.q.v && y.q.ledger == x.q.ledger
  {
    y := Scenarios.ReadOne(s, x, now);
  }

  /** An effect is logged while there is no marker. */
  lemma Effected(s: Settings, x: System, e: EntryId) returns (y: System)
    requires s.HasEffect(0) && Streamed(x, e, true) && Key(s) !in x.q.ledger.marks
    ensures Next(s, x, DoEffect(1, e), y) && Streamed(y, e, true) && y.q.v == x.q.v
    ensures y.q.ledger == Ledger(x.q.ledger.marks + {Key(s)}, x.q.ledger.log + [Key(s)])
  {
    y := Observe(x, Apply(x.q, Key(s)));
  }

  const DIE := DoDead(1, 0, MaxAttempts, "", 1, false, 0)

  lemma Buried(s: Settings, x: System) returns (y: System)
    requires Streamed(x, 0, true) && x.q.v == Verdicts(map[], [], map[], 0)
    ensures Next(s, x, DIE, y) && y.q.ledger == x.q.ledger && y.written == x.written && y.accepted == x.accepted
    ensures GroupOk(y.q.g) && y.q.g.nextId == y.q.g.delivered == 1 && y.q.g.stream == map[] && y.q.g.pel == map[]
    ensures y.q.v.IsDead(0) && y.q.v.done[0].entry in y.q.v.dlq && y.q.v.dlq[y.q.v.done[0].entry].fields == Some(JOB)
  {
    y := Observe(x, DeadLetter(x.q, 1, 0, 0, MaxAttempts, "", 1, false, 0));
    assert x.q.g.pel.Keys == {0};
  }

  lemma Requeued(s: Settings, x: System) returns (y: System)
    requires GroupOk(x.q.g) && x.q.g.nextId == x.q.g.delivered == 1 && x.q.g.stream == map[] && |x.written| == 1 && x.accepted == map[0 := 0]
    requires x.q.v.IsDead(0) && x.q.v.done[0].entry in x.q.v.dlq && x.q.v.dlq[x.q.v.done[0].entry].fields == Some(JOB)
    ensures Next(s, x, DoRequeue(0), y) && Streamed(y, 1, false) && y.q.ledger == x.q.ledger
  {
    y := Observe(x, Requeue(x.q, 0)).(written := x.written + [Revived(x.q.v, 0)]);
    assert Revived(x.q.v, 0) == JOB;
  }

  // ---------------------------------------------------------------- the run

  lemma Extend(s: Settings, r: Story, m: Move, y: Fading, t: real) returns (n: Story)
    requires r.Valid(s) && Moves(s, r.states[|r.moves|], m, y) && forall i :: 0 <= i < |r.times| ==> r.times[i] <= t
    requires m.Does? && TimeOf(m.a).Some? ==> t == TimeOf(m.a).value as real / 1000.0
    ensures n.Valid(s) && n == Story(r.states + [y], r.moves + [m], r.times + [t])
  {
    n := Story(r.states + [y], r.moves + [m], r.times + [t]);
    forall i {:trigger n.moves[i]} | 0 <= i < |n.moves| ensures MovesOf(s)(n.states[i], n.moves[i], n.states[i + 1]) {
      if i < |r.moves| {
        assert MovesOf(s)(r.states[i], r.moves[i], r.states[i + 1]);
      }
    }
  }

  lemma Call(s: Settings, r: Story, a: Action, y: System, t: real) returns (n: Story)
    requires r.Valid(s) && !a.DoCommit? && Next(s, r.states[|r.moves|].x, a, y) && forall i :: 0 <= i < |r.times| ==> r.times[i] <= t
    requires TimeOf(a).Some? ==> t == TimeOf(a).value as real / 1000.0
    ensures n.Valid(s)
    ensures n == Story(r.states + [Fading(y, r.states[|r.moves|].gone, r.states[|r.moves|].lost)], r.moves + [Does(a)], r.times + [t])
  {
    n := Extend(s, r, Does(a), Fading(y, r.states[|r.moves|].gone, r.states[|r.moves|].lost), t);
  }

  lemma Empty(s: Settings) returns (r: Story)
    ensures r.Valid(s) && r.moves == [] && r.times == [] && |r.states| == 1 && IsStart(r.states[0])
  {
    var start := Scenarios.Start(s);
    r := Story([Fading(start.Last(), {}, {})], [], []);
  }

  function Last(r: Story): Fading
    requires |r.states| == |r.moves| + 1
  {
    r.states[|r.moves|]
  }

  /** One step longer. */
  ghost predicate Longer(r: Story, n: Story, m: Move, t: real) {
    && |r.states| == |r.moves| + 1 && |n.states| == |n.moves| + 1 && |r.times| == |r.moves|
    && n.moves == r.moves + [m] && n.times == r.times + [t] && n.states == r.states + [Last(n)]
  }

  ghost predicate UpTo(s: Settings, r: Story, t: real) {
    r.Valid(s) && |r.states| == |r.moves| + 1 && forall i :: 0 <= i < |r.times| ==> r.times[i] <= t
  }

  ghost predicate SameKeys(p: Fading, r: Fading) {
    r.gone == p.gone && r.lost == p.lost && r.x.q.v == p.x.q.v && r.x.q.ledger == p.x.q.ledger
  }

  lemma AddIt(s: Settings) returns (r: Story)
    requires s.Valid()
    ensures UpTo(s, r, 0.0) && r.moves == [Does(Scenarios.ADD)] && r.times == [0.0] && Enqueues(s, r.states[0], r.moves[0], 0)
    ensures Streamed(Last(r).x, 0, false) && Last(r).gone == {} && Last(r).lost == {}
    ensures Last(r).x.q.ledger == Ledger({}, []) && Last(r).x.q.v == Verdicts(map[], [], map[], 0)
  {
    var r0 := Empty(s);
    var x1 := Added(s, r0.states[0].x);
    r := Call(s, r0, Scenarios.ADD, x1, 0.0);
  }

  lemma ReadIt(s: Settings, r: Story, e: EntryId, now: int, t: real) returns (n: Story)
    requires UpTo(s, r, t) && Streamed(Last(r).x, e, false) && t == now as real / 1000.0
    ensures Longer(r, n, Does(DoFetch(1, 1, now)), t) && UpTo(s, n, t)
    ensures Streamed(Last(n).x, e, true) && SameKeys(Last(r), Last(n))
  {
    var y := Read(s, Last(r).x, e, now);
    n := Call(s, r, DoFetch(1, 1, now), y, t);
  }

  lemma EffectIt(s: Settings, r: Story, e: EntryId, t: real) returns (n: Story)
    requires s.HasEffect(0) && UpTo(s, r, t) && Streamed(Last(r).x, e, true) && Key(s) !in Last(r).x.q.ledger.marks
    ensures Longer(r, n, Does(DoEffect(1, e)), t) && UpTo(s, n, t)
    ensures Streamed(Last(n).x, e, true) && Last(n).gone == Last(r).gone && Last(n).lost == Last(r).lost && Last(n).x.q.v == Last(r).x.q.v
    ensures Last(n).x.q.ledger == Ledger(Last(r).x.q.ledger.marks + {Key(s)}, Last(r).x.q.ledger.log + [Key(s)])
  {
    var y := Effected(s, Last(r).x, e);
    n := Call(s, r, DoEffect(1, e), y, t);
  }

  /** The job is DEAD, and nothing is on the stream. */
  ghost predicate Dead(x: System) {
    && GroupOk(x.q.g) && x.q.g.nextId == x.q.g.delivered == 1 && x.q.g.stream == map[] && |x.written| == 1 && x.accepted == map[0 := 0]
    && x.q.v.IsDead(0) && x.q.v.done[0].entry in x.q.v.dlq && x.q.v.dlq[x.q.v.done[0].entry].fields == Some(JOB)
  }

  lemma BuryIt(s: Settings, r: Story) returns (n: Story)
    requires UpTo(s, r, 0.0) && Streamed(Last(r).x, 0, true) && Last(r).x.q.v == Verdicts(map[], [], map[], 0)
    ensures Longer(r, n, Does(DIE), 0.0) && UpTo(s, n, 0.0)
    ensures Dead(Last(n).x) && Last(n).gone == Last(r).gone && Last(n).lost == Last(r).lost && Last(n).x.q.ledger == Last(r).x.q.ledger
  {
    var y := Buried(s, Last(r).x);
    n := Call(s, r, DIE, y, 0.0);
  }

  lemma FadeIt(s: Settings, r: Story, t: real) returns (n: Story)
    requires s.HasEffect(0) && UpTo(s, r, t) && Dead(Last(r).x) && Last(r).x.q.ledger == Ledger({Key(s)}, [Key(s)])
    ensures Longer(r, n, Fades(Key(s)), t) && UpTo(s, n, t)
    ensures Dead(Last(n).x) && Last(n).x.q.ledger == Ledger({}, [Key(s)])
  {
    var p, k := Last(r), Key(s);
    assert p.x.q.ledger.marks - {k} == {};
    n := Extend(s, r, Fades(k), Fading(p.x.(q := p.x.q.(ledger := Ledger({}, [k]))), p.gone, p.lost + {k}), t);
  }

  lemma RequeueIt(s: Settings, r: Story, t: real) returns (n: Story)
    requires UpTo(s, r, t) && Dead(Last(r).x)
    ensures Longer(r, n, Does(DoRequeue(0)), t) && UpTo(s, n, t) && Requeues(Last(r), Does(DoRequeue(0)), 0)
    ensures Streamed(Last(n).x, 1, false) && Last(n).x.q.ledger == Last(r).x.q.ledger
  {
    var y := Requeued(s, Last(r).x);
    n := Call(s, r, DoRequeue(0), y, t);
  }

  /** What the eight steps are, and that each call among them comes at the time of its copy's birth. */
  ghost predicate IsTheRun(s: Settings, r: Story, now: int, t: real)
    requires s.HasEffect(0)
  {
    && |r.states| == 9 && r.times == [0.0, 0.0, 0.0, 0.0, t, t, t, t]
    && r.moves == [Does(Scenarios.ADD), Does(DoFetch(1, 1, 0)), Does(DoEffect(1, 0)), Does(DIE), Fades(Key(s)),
                   Does(DoRequeue(0)), Does(DoFetch(1, 1, now)), Does(DoEffect(1, 1))]
    && Enqueues(s, r.states[0], r.moves[0], 0) && Requeues(r.states[5], r.moves[5], 0)
    && IsOfJob(r.states[2], 0) && IsOfJob(r.states[3], 0) && IsOfJob(r.states[7], 1)
  }

  predicate IsOfJob(p: Fading, e: EntryId) {
    e < |p.x.written| && p.x.written[e] == JOB
  }

  /** How the run comes about. */
  ghost predicate Steps(s: Settings, r1: Story, r2: Story, r3: Story, r4: Story, r5: Story, r6: Story, r7: Story, r8: Story, now: int, t: real)
    requires s.HasEffect(0)
  {
    FirstSteps(s, r1, r2, r3, r4) && LastSteps(s, r4, r5, r6, r7, r8, now, t)
  }

  ghost predicate LastSteps(s: Settings, r4: Story, r5: Story, r6: Story, r7: Story, r8: Story, now: int, t: real)
    requires s.HasEffect(0)
  {
    && Longer(r4, r5, Fades(Key(s)), t) && Longer(r5, r6, Does(DoRequeue(0)), t) && Requeues(Last(r5), Does(DoRequeue(0)), 0)
    && Longer(r6, r7, Does(DoFetch(1, 1, now)), t) && Longer(r7, r8, Does(DoEffect(1, 1)), t) && IsOfJob(Last(r7), 1)
  }

  ghost predicate FirstSteps(s: Settings, r1: Story, r2: Story, r3: Story, r4: Story) {
    && |r1.states| == 2 && r1.moves == [Does(Scenarios.ADD)] && r1.times == [0.0] && Enqueues(s, r1.states[0], Does(Scenarios.ADD), 0)
    && Longer(r1, r2, Does(DoFetch(1, 1, 0)), 0.0) && Longer(r2, r3, Does(DoEffect(1, 0)), 0.0) && Longer(r3, r4, Does(DIE), 0.0)
    && IsOfJob(Last(r2), 0) && IsOfJob(Last(r3), 0)
  }

  lemma TakeFirstSteps(s: Settings) returns (r1: Story, r2: Story, r3: Story, r4: Story)
    requires s.Valid() && s.HasEffect(0)
    ensures FirstSteps(s, r1, r2, r3, r4) && UpTo(s, r4, 0.0)
    ensures Dead(Last(r4).x) && Last(r4).x.q.ledger == Ledger({Key(s)}, [Key(s)])
  {
    r1 := AddIt(s);
    r2 := ReadIt(s, r1, 0, 0, 0.0);
    r3 := EffectIt(s, r2, 0, 0.0);
    assert Last(r3).x.q.ledger == Ledger({Key(s)}, [Key(s)]);
    r4 := BuryIt(s, r3);
  }

  lemma TakeSteps(s: Settings, now: int, t: real)
    returns (r1: Story, r2: Story, r3: Story, r4: Story, r5: Story, r6: Story, r7: Story, r8: Story)
    requires s.Valid() && s.HasEffect(0) && 0.0 <= t == now as real / 1000.0
    ensures Steps(s, r1, r2, r3, r4, r5, r6, r7, r8, now, t) && UpTo(s, r8, t)
    ensures Last(r8).x.q.ledger.log == [Key(s), Key(s)]
  {
    r1, r2, r3, r4 := TakeFirstSteps(s);
    StillUpTo(s, r4, 0.0, t);
    r5, r6, r7, r8 := TakeLastSteps(s, r4, now, t);
  }

  lemma TakeLastSteps(s: Settings, r4: Story, now: int, t: real) returns (r5: Story, r6: Story, r7: Story, r8: Story)
    requires s.HasEffect(0) && t == now as real / 1000.0 && UpTo(s, r4, t)
    requires Dead(Last(r4).x) && Last(r4).x.q.ledger == Ledger({Key(s)}, [Key(s)])
    ensures LastSteps(s, r4, r5, r6, r7, r8, now, t) && UpTo(s, r8, t)
    ensures Last(r8).x.q.ledger.log == [Key(s), Key(s)]
  {
    r5 := FadeIt(s, r4, t);
    r6 := RequeueIt(s, r5, t);
    r7 := ReadIt(s, r6, 1, now, t);
    r8 := EffectIt(s, r7, 1, t);
  }

  lemma StillUpTo(s: Settings, r: Story, was: real, t: real)
    requires UpTo(s, r, was) && was <= t
    ensures UpTo(s, r, t)
  {
  }

  lemma Together(s: Settings, r1: Story, r2: Story, r3: Story, r4: Story, r5: Story, r6: Story, r7: Story, r8: Story, now: int, t: real)
    requires s.HasEffect(0) && Steps(s, r1, r2, r3, r4, r5, r6, r7, r8, now, t)
    ensures IsTheRun(s, r8, now, t)
  {
  }

  /** A delivery that is over as soon as it begins. */
  lemma AtBirth(k: Lifetime.Timing, born: real) returns (life: seq<Lifetime.Delivery>)
    requires k.Valid()
    ensures IsWithin(k, born, life, 0, born)
  {
    life := [Lifetime.Delivery(0, 1, 0.0, 0.0)];
  }

  lemma InALifeOf(s: Settings, k: Lifetime.Timing, r: Story, b: nat, i: nat)
    requires k.Valid() && |r.states| > |r.moves| == |r.times| && b < i < |r.moves|
    requires Bears(s, r.states[b], r.moves[b], 0) && r.times[i] == r.times[b]
    ensures r.InALife(s, k, i, 0)
  {
    var life := AtBirth(k, r.times[b]);
    assert Bears(s, r.states[b], r.moves[b], 0) && IsWithin(k, r.times[b], life, 0, r.times[i]);
  }

  lemma RunIsInTime(s: Settings, k: Lifetime.Timing, r: Story, now: int, t: real)
    requires s.HasEffect(0) && k.Valid() && IsTheRun(s, r, now, t)
    ensures r.CallsInTime(s, k)
  {
    InALifeOf(s, k, r, 0, 2);
    InALifeOf(s, k, r, 0, 3);
    InALifeOf(s, k, r, 5, 7);
    forall i: nat, j: JobId | i < |r.moves| && Concerns(r.states[i], r.moves[i], j) ensures r.InALife(s, k, i, j) {
      OnlyThree(s, r, now, t, i, j);
    }
  }

  lemma OnlyThree(s: Settings, r: Story, now: int, t: real, i: nat, j: JobId)
    requires s.HasEffect(0) && IsTheRun(s, r, now, t) && i < |r.moves| && Concerns(r.states[i], r.moves[i], j)
    ensures i in {2, 3, 7} && j == 0
  {
  }

  lemma RunKeepsKeys(s: Settings, ttl: real, r: Story, now: int, t: real)
    requires s.HasEffect(0) && 0.0 < ttl <= t && IsTheRun(s, r, now, t)
    ensures r.MarkersLast(s, ttl) && r.RecordsLast(ttl)
  {
    forall m: nat, i: nat, k: EffectKey | m < i < |r.moves| && LogsEffect(s, r.states[m], r.moves[m], k) && r.moves[i] == Fades(k)
      ensures ttl != 0.0 && r.times[m] + ttl <= r.times[i]
    {
      assert i == 4;
    }
  }

  /** Every call comes in time and every key lasts for its TTL, and yet the effect happens twice: the
      requeue came after its marker had expired. */
  lemma RequeueRepeatsEffect(s: Settings, k: Lifetime.Timing, ttl: real) returns (r: Story)
    requires s.Valid() && s.HasEffect(0) && k.Valid() && 0.0 < ttl
    ensures r.Valid(s) && r.CallsInTime(s, k) && r.MarkersLast(s, ttl) && r.RecordsLast(ttl)
    ensures |r.states| == |r.moves| + 1 && Last(r).x.q.ledger.log == [Key(s), Key(s)]
  {
    var now := (ttl * 1000.0).Floor + 1;
    var t := now as real / 1000.0;
    var r1, r2, r3, r4, r5, r6, r7;
    r1, r2, r3, r4, r5, r6, r7, r := TakeSteps(s, now, t);
    RunFacts(s, k, ttl, r1, r2, r3, r4, r5, r6, r7, r, now, t);
  }

  lemma RunFacts(s: Settings, k: Lifetime.Timing, ttl: real,
                 r1: Story, r2: Story, r3: Story, r4: Story, r5: Story, r6: Story, r7: Story, r8: Story, now: int, t: real)
    requires s.HasEffect(0) && k.Valid() && 0.0 < ttl <= t && Steps(s, r1, r2, r3, r4, r5, r6, r7, r8, now, t)
    ensures |r8.states| > |r8.moves| == |r8.times| && r8.CallsInTime(s, k) && r8.MarkersLast(s, ttl) && r8.RecordsLast(ttl)
  {
    Together(s, r1, r2, r3, r4, r5, r6, r7, r8, now, t);
    RunIsInTime(s, k, r8, now, t);
    RunKeepsKeys(s, ttl, r8, now, t);
  }
}
