/** Two runs that show what can happen: a refused move that lands when it is re-sent, and two retries
    that fall together. */
module Scenarios {
  import opened QueueTypes
  import opened Scripts
  import opened Protocol
  import opened Invariants
  import opened Reachable
  import opened Progress
  import opened Resend
  import opened Retries
  import opened Behaviors

  /** A run under construction. */
  datatype Story = Story(states: seq<System>, acts: seq<Action>)
  {
    /** It is a run from time 0 until `now`, in which the clock never goes back. */
    ghost predicate Valid(s: Settings, now: int) {
      IsRun(s, states, acts) && Clocked(acts, 0) && NotPast(now)
    }

    ghost predicate NotPast(now: int) {
      forall i :: 0 <= i < |acts| && TimeOf(acts[i]).Some? ==> TimeOf(acts[i]).value <= now
    }

    function Last(): System
      requires states != []
    {
      states[|states| - 1]
    }
  }

  const NOTHING := System(Queue(Group(map[], 0, 0, map[], map[]), map[], Verdicts(map[], [], map[], 0), Ledger({}, []), Door(map[], false),
                                Stats(0, 0, 0, 0, 0, 0, 0, 0, 0, 0, 0, 0, 0, 0, 0, 0), map[]), [], {}, map[], map[], 0)

  lemma Start(s: Settings) returns (r: Story)
    ensures r.Valid(s, 0) && r.Last() == NOTHING && r.acts == []
  {
    r := Story([NOTHING], []);
  }

  lemma Extend(s: Settings, r: Story, was: int, now: int, a: Action, y: System) returns (t: Story)
    requires r.Valid(s, was) && 0 <= was <= now && Next(s, r.Last(), a, y)
    requires TimeOf(a).Some? ==> TimeOf(a).value == now
    ensures t.Valid(s, now) && t.acts == r.acts + [a] && t.states == r.states + [y]
  {
    t := Story(r.states + [y], r.acts + [a]);
    forall i {:trigger t.acts[i]} | 0 <= i < |t.acts| ensures NextOf(s)(t.states[i], t.acts[i], t.states[i + 1]) {
      if i < |r.acts| {
        assert NextOf(s)(r.states[i], r.acts[i], r.states[i + 1]);
      }
    }
    StillClocked(r.acts, was, a, now);
  }

  lemma StillClocked(acts: seq<Action>, was: int, a: Action, now: int)
    requires Clocked(acts, 0) && Story([], acts).NotPast(was) && 0 <= was <= now && (TimeOf(a).Some? ==> TimeOf(a).value == now)
    ensures Clocked(acts + [a], 0) && Story([], acts + [a]).NotPast(now)
  {
    var all := acts + [a];
    assert forall i :: 0 <= i < |acts| ==> all[i] == acts[i];
  }

  /** The one job of these runs, and the producer's call that adds it. */
  const JOB := Job(0, 0, "", 0)
  const ADD := DoEnqueue(JOB, None, CountRejected)

  /** One more copy of the job is in the stream; nobody has read any. */
  ghost predicate Copies(x: System, n: nat) {
    && x.q.g.nextId == n && x.q.g.delivered == 0 && x.q.delayed == map[] && x.q.v.done == map[] && !x.q.door.full
    && (forall e: EntryId :: e in x.q.g.stream <==> e < n) && (forall e :: e in x.q.g.stream ==> x.q.g.stream[e] == JOB)
    && |x.written| == n && (forall e :: 0 <= e < n ==> x.written[e] == JOB) && |x.q.g.stream| == n
    && (n > 0 ==> x.accepted == map[0 := 0]) && (n == 0 ==> x.accepted == map[])
  }

  lemma AddCopy(s: Settings, x: System, n: nat) returns (y: System)
    requires s.Valid() && n < s.high && Copies(x, n)
    ensures Next(s, x, ADD, y) && Copies(y, n + 1)
  {
    y := Observe(x, Enqueue(s, x.q, JOB, None, CountRejected))
         .(written := x.written + [JOB], accepted := x.accepted[0 := 0], enqueued := x.enqueued + 1);
    assert n !in x.q.g.stream;
  }

  // ---------------------------------------------------------------- a refused move lands

  lemma LastInv(s: Settings, r: Story, now: int)
    requires r.Valid(s, now)
    ensures GroupOk(r.Last().q.g)
  {
    AlwaysInv(s, r.states, r.acts, |r.acts|);
  }

  /** The call that is refused, and sent again. */
  function LateRetry(now: int): Action {
    DoRetry(1, 0, 0, false, now)
  }

  /** The entry is held by a worker since `now`. */
  ghost predicate HeldSince(x: System, w: Worker, now: int) {
    && Owns(x.q.g, w, 0) && x.q.g.pel[0].since == now && 0 in x.q.g.stream && x.q.v.done == map[]
    && Handed(x, 1, 0)
  }

  /** Some worker's entry is reclaimed by worker `w` once its lease has run out. */
  lemma Steal(s: Settings, r: Story, was: int, holder: Worker, w: Worker) returns (t: Story)
    requires r.Valid(s, was) && 0 <= was && HeldSince(r.Last(), holder, was)
    ensures t.Valid(s, was + s.lease) && |t.acts| == |r.acts| + 1 && r.states <= t.states && r.acts <= t.acts
    ensures HeldSince(t.Last(), w, was + s.lease)
  {
    LastInv(s, r, was);
    var a, y := ReclaimNext(s, r.Last(), w, 0, was + s.lease);
    t := Extend(s, r, was, was + s.lease, a, y);
  }

  lemma OneCopy(s: Settings) returns (r: Story)
    requires s.Valid()
    ensures r.Valid(s, 0) && |r.acts| == 1 && Copies(r.Last(), 1)
  {
    r := Start(s);
    assert Copies(NOTHING, 0);
    var x1 := AddCopy(s, NOTHING, 0);
    r := Extend(s, r, 0, 0, ADD, x1);
  }

  /** Worker 1 reads the next entry. */
  lemma ReadOne(s: Settings, x: System, now: int) returns (y: System)
    requires GroupOk(x.q.g) && x.q.g.delivered in x.q.g.stream
    ensures Next(s, x, DoFetch(1, 1, now), y)
    ensures y.q == x.q.(g := Register(x.q.g, 1, now).(delivered := x.q.g.delivered + 1, pel := x.q.g.pel[x.q.g.delivered := Lease(1, now, 1)]))
    ensures y.written == x.written && y.accepted == x.accepted && x.holders + {(1, x.q.g.delivered)} <= y.holders
  {
    var g, d := Register(x.q.g, 1, now), x.q.g.delivered;
    assert NextFrom(g.stream, d, g.nextId) == d;
    assert FetchAll(g, 1, 1, now) == FetchAll(FetchOne(g, 1, now), 1, 0, now);
    var z := Observe(x, Fetch(x.q, 1, 1, now));
    y := z.(holders := x.holders + Fetched(x.q.g, z.q.g, 1));
  }

  lemma OneRead(s: Settings) returns (r: Story)
    requires s.Valid()
    ensures r.Valid(s, 0) && |r.acts| == 2 && HeldSince(r.Last(), 1, 0)
  {
    r := OneCopy(s);
    LastInv(s, r, 0);
    var x2 := ReadOne(s, r.Last(), 0);
    r := Extend(s, r, 0, 0, DoFetch(1, 1, 0), x2);
  }

  lemma RetryStep(s: Settings, x: System, now: int) returns (y: System)
    requires GroupOk(x.q.g) && Handed(x, 1, 0)
    ensures Next(s, x, LateRetry(now), y) && (OnlyCounters(x, y) <==> !Owns(x.q.g, 1, 0))
    ensures !Owns(x.q.g, 1, 0) ==> y.q.g == x.q.g && y.q.v == x.q.v && y.written == x.written && y.holders == x.holders
  {
    y := Observe(x, Retry(x.q, 1, 0, x.written[0].id, x.written[0].attempt + 1, 0, false, now));
    assert Next(s, x, LateRetry(now), y);
    MoveActsIffOwned(s, x, LateRetry(now), y);
  }

  /** Worker 1 sends its retry, and it does something exactly if the entry is worker 1's. */
  lemma SendRetry(s: Settings, r: Story, holder: Worker, now: int) returns (t: Story)
    requires 0 <= now && r.Valid(s, now) && HeldSince(r.Last(), holder, now)
    ensures t.Valid(s, now) && t.acts == r.acts + [LateRetry(now)] && t.states == r.states + [t.Last()]
    ensures OnlyCounters(r.Last(), t.Last()) <==> holder != 1
    ensures holder != 1 ==> HeldSince(t.Last(), holder, now)
  {
    LastInv(s, r, now);
    var y := RetryStep(s, r.Last(), now);
    t := Extend(s, r, now, now, LateRetry(now), y);
  }

  /** A retry is refused, its caller reclaims the entry, and the same call, sent again, then takes
      effect. The clock never goes back. */
  lemma RefusedRetryLands(s: Settings) returns (r: Story)
    requires s.Valid()
    ensures IsRun(s, r.states, r.acts) && Clocked(r.acts, 0)
    ensures |r.acts| == 6 && r.acts[3].DoRetry? && SameCall(r.acts[5], r.acts[3])
    ensures OnlyCounters(r.states[3], r.states[4]) && !OnlyCounters(r.states[5], r.states[6])
  {
    var read := OneRead(s);
    var stolen := Steal(s, read, 0, 1, 2);
    var refused := SendRetry(s, stolen, 2, s.lease);
    var regained := Steal(s, refused, s.lease, 2, 1);
    r := SendRetry(s, regained, 1, s.lease + s.lease);
    assert r.states[4] == refused.Last() && r.states[3] == stolen.Last();
  }

  // ---------------------------------------------------------------- two retries fall together

  lemma TwoCopies(s: Settings) returns (r: Story)
    requires s.Valid() && 2 <= s.high
    ensures r.Valid(s, 0) && |r.acts| == 2 && Copies(r.Last(), 2)
  {
    r := OneCopy(s);
    var x2 := AddCopy(s, r.Last(), 1);
    r := Extend(s, r, 0, 0, ADD, x2);
  }

  /** Both copies are in the stream, and worker 1 has read the first `n`. */
  ghost predicate ReadSoFar(x: System, n: nat) {
    && x.q.g.delivered == n <= 2 && x.q.g.stream == map[0 := JOB, 1 := JOB] && x.written == [JOB, JOB]
    && x.q.v.done == map[] && x.q.delayed == map[]
    && forall e: EntryId :: e < n ==> Handed(x, 1, e) && Owns(x.q.g, 1, e)
  }

  lemma ReadNext(s: Settings, r: Story, n: nat) returns (t: Story)
    requires r.Valid(s, 0) && n < 2 && ReadSoFar(r.Last(), n)
    ensures t.Valid(s, 0) && |t.acts| == |r.acts| + 1 && ReadSoFar(t.Last(), n + 1)
  {
    LastInv(s, r, 0);
    var x := r.Last();
    var y := ReadOne(s, x, 0);
    t := Extend(s, r, 0, 0, DoFetch(1, 1, 0), y);
    forall e: EntryId | e < n + 1 ensures Handed(y, 1, e) && Owns(y.q.g, 1, e) {
      assert e < n ==> Handed(x, 1, e) && Owns(x.q.g, 1, e);
    }
  }

  /** Two copies of the job, both read by worker 1. */
  lemma BothRead(s: Settings) returns (r: Story)
    requires s.Valid() && 2 <= s.high
    ensures r.Valid(s, 0) && |r.acts| == 4 && ReadSoFar(r.Last(), 2)
  {
    r := TwoCopies(s);
    assert r.Last().written == [JOB, JOB] && r.Last().q.g.stream == map[0 := JOB, 1 := JOB];
    r := ReadNext(s, r, 0);
    r := ReadNext(s, r, 1);
  }

  lemma RetryEntry(s: Settings, x: System, e: EntryId) returns (y: System)
    requires Handed(x, 1, e) && Owns(x.q.g, 1, e) && e in x.q.g.stream && x.written[e].id !in x.q.v.done
    ensures Next(s, x, DoRetry(1, e, 0, false, 0), y)
    ensures y.q.g == Exit(x.q.g, e) && y.q.v == x.q.v && y.written == x.written && y.holders == x.holders
    ensures y.q.delayed == x.q.delayed[x.q.g.stream[e].(attempt := x.written[e].attempt + 1) := 0]
  {
    y := Observe(x, Retry(x.q, 1, e, x.written[e].id, x.written[e].attempt + 1, 0, false, 0));
  }

  /** One of the two copies has been retried. */
  ghost predicate OneWaits(x: System) {
    && x.q.delayed == map[JOB.(attempt := 1) := 0] && x.q.g.stream == map[1 := JOB] && x.written == [JOB, JOB]
    && x.q.v.done == map[] && Handed(x, 1, 1) && Owns(x.q.g, 1, 1)
  }

  lemma FirstRetry(s: Settings) returns (r: Story)
    requires s.Valid() && 2 <= s.high
    ensures r.Valid(s, 0) && |r.acts| == 5 && OneWaits(r.Last())
  {
    r := BothRead(s);
    var x4 := r.Last();
    assert Handed(x4, 1, 0) && Owns(x4.q.g, 1, 0) && Handed(x4, 1, 1) && Owns(x4.q.g, 1, 1);
    var x5 := RetryEntry(s, x4, 0);
    r := Extend(s, r, 0, 0, DoRetry(1, 0, 0, false, 0), x5);
  }

  /** A re-sent enqueue added the job twice, stamped with the same millisecond; the retries of the two
      copies are one delayed member. */
  lemma TwoRetriesCollapse(s: Settings) returns (r: Story)
    requires s.Valid() && 2 <= s.high
    ensures IsRun(s, r.states, r.acts) && Clocked(r.acts, 0)
    ensures |r.acts| == 6 && Collapses(r.states[5], r.acts[5]) && |r.Last().q.delayed| == 1
  {
    r := FirstRetry(s);
    var x5 := r.Last();
    var x6 := RetryEntry(s, x5, 1);
    assert Member(x5, 1) == JOB.(attempt := 1);
    r := Extend(s, r, 0, 0, DoRetry(1, 1, 0, false, 0), x6);
    assert x6.q.delayed == map[JOB.(attempt := 1) := 0];
  }
}
