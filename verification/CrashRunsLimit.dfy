/** The exact condition of crash isolation in runs of the queue: the fleet's bad run, step by step, as
    calls to the queue. */
module CrashRunsLimit {
  import opened QueueTypes
  import opened Scripts
  import opened Protocol
  import opened Invariants
  import opened CrashRuns
  import Behaviors
  import Reachability = Reachable
  import Crashes = CrashIsolation
  import Limit = CrashIsolationLimit

  /** The `n` entries after the first are the crashy ones. */
  function Crashy(n: nat): (r: seq<EntryId>)
    ensures |r| == n && forall i :: 0 <= i < n ==> r[i] == i + 1
  {
    seq(n, (i: nat) => i + 1)
  }

  function TimeOfMove(m: Move): Option<int> {
    match m
    case Calls(a) => TimeOf(a)
    case Dies(_, _) => None
  }

  /** The clock starts at 0, never goes back, and has not passed `upto`. */
  ghost predicate ClockedMoves(moves: seq<Move>, upto: int) {
    && 0 <= upto && (forall i :: 0 <= i < |moves| && TimeOfMove(moves[i]).Some? ==> 0 <= TimeOfMove(moves[i]).value <= upto)
    && forall i, k :: 0 <= i < k < |moves| && TimeOfMove(moves[i]).Some? && TimeOfMove(moves[k]).Some? ==>
         TimeOfMove(moves[i]).value <= TimeOfMove(moves[k]).value
  }

  /** A run of the queue under construction. */
  datatype Tale = Tale(floors: seq<Floor>, moves: seq<Move>)
  {
    ghost predicate Valid(s: Settings, crashy: seq<EntryId>, now: int) {
      IsFloorRun(s, crashy, floors, moves) && ClockedMoves(moves, now)
    }

    function Last(): Floor
      requires floors != []
    {
      floors[|floors| - 1]
    }
  }

  lemma Extend(s: Settings, crashy: seq<EntryId>, r: Tale, was: int, now: int, m: Move, y: Floor) returns (t: Tale)
    requires r.Valid(s, crashy, was) && was <= now && Moves(s, crashy, r.Last(), m, y)
    requires TimeOfMove(m).Some? ==> TimeOfMove(m).value == now
    ensures t.Valid(s, crashy, now) && t.Last() == y
  {
    t := Tale(r.floors + [y], r.moves + [m]);
    forall i {:trigger t.moves[i]} | 0 <= i < |t.moves|
      ensures MovesOf(s, crashy)(t.floors[i], t.moves[i], t.floors[i + 1])
    {
      if i < |r.moves| {
        assert MovesOf(s, crashy)(r.floors[i], r.moves[i], r.floors[i + 1]);
      }
    }
    assert forall i :: 0 <= i < |r.moves| ==> t.moves[i] == r.moves[i];
  }

  /** Every entry that was added was read, and all are still there. */
  ghost predicate AllRead(p: Floor) {
    var q := p.x.q;
    && q.g.delivered == q.g.nextId && q.delayed == map[] && !q.door.full && |q.g.stream| == q.g.nextId
    && (forall e: EntryId :: e in p.seen <==> e < q.g.nextId)
    && forall j :: j in p.x.accepted ==> j < q.g.nextId
  }

  // ---------------------------------------------------------------- a fetch

  function NewJob(e: EntryId): Job {
    Job(e, 0, "", 0)
  }

  lemma EnqueueNew(s: Settings, x: System) returns (y: System)
    requires s.Valid() && GroupOk(x.q.g) && !x.q.door.full && Depth(x.q) < s.high
    requires forall j :: j in x.accepted ==> j < x.q.g.nextId
    ensures Next(s, x, DoEnqueue(NewJob(x.q.g.nextId), None, CountRejected), y)
    ensures var e := x.q.g.nextId;
            && y.q.g == x.q.g.(stream := x.q.g.stream[e := NewJob(e)], nextId := e + 1)
            && y.q.delayed == x.q.delayed && !y.q.door.full && y.accepted == x.accepted[e := 0]
  {
    var job := NewJob(x.q.g.nextId);
    assert Admit(s, x.q, job, None).Added?;
    y := Observe(x, Enqueue(s, x.q, job, None, CountRejected))
         .(written := x.written + [job], accepted := x.accepted[job.id := 0], enqueued := x.enqueued + 1);
  }

  /** The entry was added, and not read yet. */
  lemma Enqueued(s: Settings, crashy: seq<EntryId>, p: Floor) returns (y: Floor)
    requires s.Valid() && AllRead(p) && GroupOk(p.x.q.g) && p.x.q.g.nextId < s.high && p.running.Keys <= p.x.q.g.pel.Keys <= p.seen
    ensures Moves(s, crashy, p, Calls(DoEnqueue(NewJob(p.x.q.g.nextId), None, CountRejected)), y)
    ensures y.running == p.running && y.seen == p.seen
    ensures var e := p.x.q.g.nextId;
            && y.x.q.g == p.x.q.g.(stream := p.x.q.g.stream[e := NewJob(e)], nextId := e + 1)
            && y.x.q.delayed == p.x.q.delayed && !y.x.q.door.full && y.x.accepted == p.x.accepted[e := 0]
  {
    var x := EnqueueNew(s, p.x);
    y := Floor(x, p.running, p.seen);
    EnqueueNotes(s, crashy, p, DoEnqueue(NewJob(p.x.q.g.nextId), None, CountRejected), x);
  }

  lemma EnqueueNotes(s: Settings, crashy: seq<EntryId>, p: Floor, a: Action, x: System)
    requires a.DoEnqueue? && x.q.g.pel == p.x.q.g.pel && p.running.Keys <= p.x.q.g.pel.Keys <= p.seen
    ensures NotesAfter(s, p, a, Floor(x, p.running, p.seen)) && Behaves(s, crashy, p, a)
  {
    assert p.running == map e | e in p.running && e in x.q.g.pel :: p.running[e];
    assert p.seen + x.q.g.pel.Keys == p.seen;
  }

  /** And now it was read, by worker 0. */
  lemma Fetched(s: Settings, crashy: seq<EntryId>, p: Floor, now: int) returns (y: Floor)
    requires var g := p.x.q.g; GroupOk(g) && g.delivered + 1 == g.nextId && g.delivered in g.stream
    requires p.running.Keys <= p.x.q.g.pel.Keys <= p.seen
    ensures Moves(s, crashy, p, Calls(DoFetch(0, 1, now)), y)
    ensures var e := p.x.q.g.delivered;
            && y.x.q.g == Register(p.x.q.g, 0, now).(delivered := e + 1, pel := p.x.q.g.pel[e := Lease(0, now, 1)])
            && y.x.q.delayed == p.x.q.delayed && y.x.q.door == p.x.q.door && y.x.accepted == p.x.accepted
            && y.running == p.running[e := 0] && y.seen == p.seen + {e}
  {
    var g, e := Register(p.x.q.g, 0, now), p.x.q.g.delivered;
    assert NextFrom(g.stream, e, g.nextId) == e;
    assert FetchAll(g, 0, 1, now) == FetchAll(FetchOne(g, 0, now), 0, 0, now);
    var z := Observe(p.x, Fetch(p.x.q, 0, 1, now));
    var x := z.(holders := p.x.holders + Protocol.Fetched(p.x.q.g, z.q.g, 0));
    y := Floor(x, p.running[e := 0], p.seen + {e});
    FetchNotes(s, crashy, p, now, x);
  }

  lemma FetchNotes(s: Settings, crashy: seq<EntryId>, p: Floor, now: int, x: System)
    requires p.running.Keys <= p.x.q.g.pel.Keys <= p.seen
    requires var e := p.x.q.g.delivered; x.q.g.pel == p.x.q.g.pel[e := Lease(0, now, 1)] && forall k :: k in p.x.q.g.pel ==> k < e
    ensures var e := p.x.q.g.delivered; NotesAfter(s, p, DoFetch(0, 1, now), Floor(x, p.running[e := 0], p.seen + {e}))
    ensures Behaves(s, crashy, p, DoFetch(0, 1, now))
  {
    var e := p.x.q.g.delivered;
    assert p.running[e := 0] == p.running + map k | k in x.q.g.pel && e <= k :: 0;
    assert p.seen + x.q.g.pel.Keys == p.seen + {e};
  }

  // ---------------------------------------------------------------- every event of the bad run

  /** The floor stands where the fleet does. */
  ghost predicate Stands(s: Settings, p: Floor, f: Crashes.Fleet) {
    Reachability.InvOf(s)(p.x) && p.Fleet() == f && Crashes.ShapeOk(f) && AllRead(p)
  }

  /** Worker 0's reclaim. */
  function Claim(s: Settings, f: Crashes.Fleet, ids: seq<EntryId>, now: int): Action {
    DoReclaim(0, |ids|, ids, {}, Crashes.Slots(s, f, 0), now)
  }

  lemma ClaimList(s: Settings, crashy: seq<EntryId>, p: Floor, ids: seq<EntryId>, now: int)
    requires GroupOk(p.x.q.g) && Crashes.Possible(s, crashy, p.Fleet(), Crashes.Reclaim(0, ids, now))
    ensures IsClaimList(s, p.x.q.g, now, |ids|, ids, {}) && Behaves(s, crashy, p, Claim(s, p.Fleet(), ids, now))
  {
  }

  lemma Reclaimed(s: Settings, crashy: seq<EntryId>, p: Floor, ids: seq<EntryId>, now: int) returns (x: System)
    requires GroupOk(p.x.q.g) && Crashes.Possible(s, crashy, p.Fleet(), Crashes.Reclaim(0, ids, now))
    ensures Next(s, p.x, Claim(s, p.Fleet(), ids, now), x)
    ensures x.q.g == Register(p.x.q.g, 0, now).(pel := Crashes.Claims(s, p.Fleet(), 0, ids, now).pel)
    ensures x.q.delayed == p.x.q.delayed && x.q.door == p.x.q.door && x.accepted == p.x.accepted
  {
    ClaimList(s, crashy, p, ids, now);
    var slots := Crashes.Slots(s, p.Fleet(), 0);
    assert p.x.q.g.pel - {} == p.x.q.g.pel;
    x := Observe(p.x, Scripts.Reclaim(s, p.x.q, 0, ids, {}, slots, now))
         .(holders := p.x.holders + Taken(ReclaimPass(s, p.x.q.g, 0, ids, {}, slots, now), 0));
  }

  lemma ReclaimNotes(s: Settings, crashy: seq<EntryId>, p: Floor, ids: seq<EntryId>, now: int, x: System, f: Crashes.Fleet)
    requires Crashes.ShapeOk(p.Fleet()) && Crashes.Happens(s, crashy, p.Fleet(), Crashes.Reclaim(0, ids, now), f)
    requires x.q.g.pel == f.pel
    ensures NotesAfter(s, p, Claim(s, p.Fleet(), ids, now), Floor(x, f.running, f.seen))
  {
    Crashes.ReclaimFacts(s, crashy, p.Fleet(), Crashes.Reclaim(0, ids, now), f);
    assert p.x.q.g.pel - {} == p.x.q.g.pel;
    assert p.seen + x.q.g.pel.Keys == p.seen;
  }

  lemma LiftReclaim(s: Settings, crashy: seq<EntryId>, p: Floor, ids: seq<EntryId>, now: int, f: Crashes.Fleet) returns (y: Floor)
    requires GroupOk(p.x.q.g) && Crashes.ShapeOk(p.Fleet()) && AllRead(p)
    requires Crashes.Happens(s, crashy, p.Fleet(), Crashes.Reclaim(0, ids, now), f)
    ensures Moves(s, crashy, p, Calls(Claim(s, p.Fleet(), ids, now)), y) && y.Fleet() == f && AllRead(y)
  {
    ClaimList(s, crashy, p, ids, now);
    var x := Reclaimed(s, crashy, p, ids, now);
    y := Floor(x, f.running, f.seen);
    ReclaimNotes(s, crashy, p, ids, now, x, f);
  }

  lemma LiftCrash(s: Settings, crashy: seq<EntryId>, p: Floor, w: Worker, c: EntryId, f: Crashes.Fleet) returns (y: Floor)
    requires AllRead(p) && Crashes.Happens(s, crashy, p.Fleet(), Crashes.Crash(w, c), f)
    ensures Moves(s, crashy, p, Dies(w, c), y) && y.Fleet() == f && y.x == p.x && AllRead(y)
  {
    y := p.(running := map e | e in p.running && p.running[e] != w :: p.running[e]);
  }

  lemma LiftFetch(s: Settings, crashy: seq<EntryId>, p: Floor, e: EntryId, now: int, f: Crashes.Fleet) returns (z: Floor, y: Floor)
    requires s.Valid() && GroupOk(p.x.q.g) && Crashes.ShapeOk(p.Fleet()) && AllRead(p) && e < s.high
    requires Limit.IsNext(p.seen, e) && Crashes.Happens(s, crashy, p.Fleet(), Crashes.Fetch(0, e, now), f)
    ensures Moves(s, crashy, p, Calls(DoEnqueue(NewJob(e), None, CountRejected)), z)
    ensures Moves(s, crashy, z, Calls(DoFetch(0, 1, now)), y) && y.Fleet() == f && AllRead(y)
  {
    NextIs(p, e);
    z := Enqueued(s, crashy, p);
    AddedOne(p.x.q.g, z.x.q.g, e);
    y := Fetched(s, crashy, z, now);
    ReadOne(p, z, y, now);
  }

  lemma NextIs(p: Floor, e: EntryId)
    requires AllRead(p) && Limit.IsNext(p.seen, e)
    ensures e == p.x.q.g.nextId
  {
    assert e in p.seen <==> e < p.x.q.g.nextId;
    assert p.x.q.g.nextId in p.seen <==> p.x.q.g.nextId < e;
  }

  lemma AddedOne(g: Group, h: Group, e: EntryId)
    requires GroupOk(g) && e == g.nextId && h == g.(stream := g.stream[e := NewJob(e)], nextId := e + 1)
    ensures GroupOk(h) && e !in g.stream && |h.stream| == |g.stream| + 1
  {
    AppendKeeps(g, NewJob(e));
    assert e !in g.stream;
  }

  lemma ReadOne(p: Floor, z: Floor, y: Floor, now: int)
    requires AllRead(p) && var e := p.x.q.g.nextId;
             && e !in p.x.q.g.stream && z.x.q.g == p.x.q.g.(stream := p.x.q.g.stream[e := NewJob(e)], nextId := e + 1)
             && z.x.q.delayed == p.x.q.delayed && !z.x.q.door.full && z.x.accepted == p.x.accepted[e := 0] && z.seen == p.seen
    requires var e := z.x.q.g.delivered;
             && y.x.q.g == Register(z.x.q.g, 0, now).(delivered := e + 1, pel := z.x.q.g.pel[e := Lease(0, now, 1)])
             && y.x.q.delayed == z.x.q.delayed && y.x.q.door == z.x.q.door && y.x.accepted == z.x.accepted && y.seen == z.seen + {e}
    ensures AllRead(y)
  {
  }

  // ---------------------------------------------------------------- the bad run

  function Later(a: Crashes.Event, was: int): int {
    if Limit.TimeOf(a).Some? then Limit.TimeOf(a).value else was
  }

  lemma CallKeeps(s: Settings, crashy: seq<EntryId>, p: Floor, a: Action, y: Floor)
    requires Reachability.InvOf(s)(p.x) && Moves(s, crashy, p, Calls(a), y)
    ensures Reachability.InvOf(s)(y.x)
  {
    assert Reachability.SystemInv(s, p.x);
    Reachability.StepKeeps(s, p.x, a, y.x);
  }

  lemma LiftStep(s: Settings, crashy: seq<EntryId>, r: Tale, was: int, f: Crashes.Fleet, a: Crashes.Event, g: Crashes.Fleet, most: nat)
    returns (t: Tale)
    requires s.Valid() && most < s.high && r.Valid(s, crashy, was) && Stands(s, r.Last(), f) && was <= Later(a, was)
    requires Crashes.Happens(s, crashy, f, a, g) && Limit.InOrder(f, a, most) && Crashes.ShapeOk(g)
    ensures t.Valid(s, crashy, Later(a, was)) && Stands(s, t.Last(), g)
  {
    assert Reachability.SystemInv(s, r.Last().x);
    match a
    case Fetch(w, e, now) =>
      var z, y := LiftFetch(s, crashy, r.Last(), e, now, g);
      CallKeeps(s, crashy, r.Last(), DoEnqueue(NewJob(e), None, CountRejected), z);
      CallKeeps(s, crashy, z, DoFetch(0, 1, now), y);
      t := Extend(s, crashy, r, was, was, Calls(DoEnqueue(NewJob(e), None, CountRejected)), z);
      t := Extend(s, crashy, t, was, now, Calls(DoFetch(0, 1, now)), y);
    case Reclaim(w, ids, now) =>
      var y := LiftReclaim(s, crashy, r.Last(), ids, now, g);
      CallKeeps(s, crashy, r.Last(), Claim(s, f, ids, now), y);
      t := Extend(s, crashy, r, was, now, Calls(Claim(s, f, ids, now)), y);
    case Crash(w, c) =>
      var y := LiftCrash(s, crashy, r.Last(), w, c, g);
      t := Extend(s, crashy, r, was, was, Dies(w, c), y);
  }

  /** The time of the last event so far. */
  function LastTime(acts: seq<Crashes.Event>): int {
    if acts == [] then 0 else Later(acts[|acts| - 1], LastTime(acts[..|acts| - 1]))
  }

  lemma {:induction false} LastTimeIsPast(acts: seq<Crashes.Event>, upto: int, i: nat)
    requires Limit.Clocked(acts, upto) && i < |acts|
    ensures 0 <= LastTime(acts[..i]) <= Later(acts[i], LastTime(acts[..i]))
    decreases i
  {
    if 0 < i {
      LastTimeIsPast(acts, upto, i - 1);
      assert acts[..i][..i - 1] == acts[..i - 1];
      LastTimeBound(acts, upto, i, i);
    }
  }

  lemma {:induction false} LastTimeBound(acts: seq<Crashes.Event>, upto: int, i: nat, k: nat)
    requires Limit.Clocked(acts, upto) && i <= k < |acts|
    ensures LastTime(acts[..i]) <= Later(acts[k], LastTime(acts[..i]))
    decreases i
  {
    if 0 < i {
      assert acts[..i][..i - 1] == acts[..i - 1];
      LastTimeBound(acts, upto, i - 1, k);
    }
  }

  lemma Opening() returns (p: Floor)
    ensures IsOpening(p)
  {
    p := Floor(System(Queue(Group(map[], 0, 0, map[], map[]), map[], Verdicts(map[], [], map[], 0), Ledger({}, []), Door(map[], false),
                            Stats(0, 0, 0, 0, 0, 0, 0, 0, 0, 0, 0, 0, 0, 0, 0, 0), map[]), [], {}, map[], map[], 0), map[], {});
  }

  lemma Start(s: Settings, crashy: seq<EntryId>) returns (t: Tale)
    ensures t.Valid(s, crashy, 0) && Stands(s, t.Last(), Crashes.Fleet(map[], {}, map[]))
  {
    var p := Opening();
    t := OnlyOpening(s, crashy, p);
    OpeningStands(s, p);
  }

  lemma OnlyOpening(s: Settings, crashy: seq<EntryId>, p: Floor) returns (t: Tale)
    requires IsOpening(p)
    ensures t.Valid(s, crashy, 0) && t == Tale([p], [])
  {
    t := Tale([p], []);
  }

  lemma OpeningStands(s: Settings, p: Floor)
    requires IsOpening(p)
    ensures Stands(s, p, Crashes.Fleet(map[], {}, map[]))
  {
    Reachability.InitInvOf(s);
    assert Reachability.InvOf(s)(p.x);
    OpeningIsRead(p);
  }

  lemma OpeningIsRead(p: Floor)
    requires IsOpening(p)
    ensures AllRead(p) && Crashes.ShapeOk(p.Fleet()) && p.Fleet() == Crashes.Fleet(map[], {}, map[])
  {
  }

  lemma LiftNext(s: Settings, crashy: seq<EntryId>, before: Tale, r: Limit.Story, most: nat, i: nat) returns (t: Tale)
    requires s.Valid() && most < s.high && r.Valid(s, crashy) && r.Orderly(most) && i < |r.acts|
    requires before.Valid(s, crashy, LastTime(r.acts[..i])) && Stands(s, before.Last(), r.states[i])
    ensures t.Valid(s, crashy, LastTime(r.acts[..i + 1])) && Stands(s, t.Last(), r.states[i + 1])
  {
    assert r.acts[..i + 1][..i] == r.acts[..i];
    LastTimeIsPast(r.acts, r.now, i);
    StoryStep(s, crashy, r, most, i);
    ShapeKeeps(s, crashy, r.states[i], r.acts[i], r.states[i + 1]);
    t := LiftStep(s, crashy, before, LastTime(r.acts[..i]), r.states[i], r.acts[i], r.states[i + 1], most);
  }

  /** The queue can go through whatever the fleet goes through in order. */
  lemma {:induction false} Lift(s: Settings, crashy: seq<EntryId>, r: Limit.Story, most: nat, i: nat) returns (t: Tale)
    requires s.Valid() && most < s.high && r.Valid(s, crashy) && r.Orderly(most) && i <= |r.acts|
    ensures t.Valid(s, crashy, LastTime(r.acts[..i])) && Stands(s, t.Last(), r.states[i])
    decreases i
  {
    if i == 0 {
      t := Start(s, crashy);
    } else {
      var before := Lift(s, crashy, r, most, i - 1);
      t := LiftNext(s, crashy, before, r, most, i - 1);
    }
  }

  lemma ShapeKeeps(s: Settings, crashy: seq<EntryId>, f: Crashes.Fleet, a: Crashes.Event, g: Crashes.Fleet)
    requires Crashes.ShapeOk(f) && Crashes.Happens(s, crashy, f, a, g)
    ensures Crashes.ShapeOk(g)
  {
    if a.Reclaim? {
      Crashes.ReclaimFacts(s, crashy, f, a, g);
    }
  }

  lemma StoryStep(s: Settings, crashy: seq<EntryId>, r: Limit.Story, most: nat, i: nat)
    requires r.Valid(s, crashy) && r.Orderly(most) && i < |r.acts|
    ensures Crashes.Happens(s, crashy, r.states[i], r.acts[i], r.states[i + 1])
    ensures Limit.InOrder(r.states[i], r.acts[i], most)
  {
    assert Crashes.HappensOf(s, crashy)(r.states[i], r.acts[i], r.states[i + 1]);
  }

  /** The failing run: with `n` crashy jobs, the job added before them is delivered more often than the
      bound. The clock never goes back, the workers behave, and every step is one of the queue's. */
  lemma BoundBrokenInTheQueue(s: Settings, n: nat) returns (t: Tale, now: int)
    requires s.Valid() && 2 <= s.maxDeliveries && n < s.high && s.maxDeliveries < Crashes.MostDeliveries(s, n)
    ensures t.Valid(s, Crashy(n), now)
    ensures var pel := t.Last().x.q.g.pel; 0 in pel && pel[0].deliveries > Crashes.MostDeliveries(s, n)
  {
    var r := Limit.BadRun(s, Crashy(n), 0);
    t := Lift(s, Crashy(n), r, n, |r.acts|);
    now := LastTime(r.acts[..|r.acts|]);
    assert t.Last().x.q.g.pel == r.states[|r.acts|].pel;
  }

  /** No run of the queue with such workers delivers the first entry more often than the bound. */
  ghost predicate IsolatedInTheQueue(s: Settings, n: nat)
    requires 1 <= s.SuspectThreshold()
  {
    forall floors: seq<Floor>, moves: seq<Move> :: IsFloorRun(s, Crashy(n), floors, moves) ==>
      var pel := floors[|moves|].x.q.g.pel; 0 in pel ==> pel[0].deliveries <= Crashes.MostDeliveries(s, n)
  }

  /** The exact condition, of the queue's own runs. */
  lemma IsolatedInTheQueueIff(s: Settings, n: nat)
    requires s.Valid() && 2 <= s.maxDeliveries && n < s.high
    ensures IsolatedInTheQueue(s, n) <==> Crashes.MostDeliveries(s, n) <= s.maxDeliveries
  {
    if Crashes.MostDeliveries(s, n) <= s.maxDeliveries {
      forall floors: seq<Floor>, moves: seq<Move> | IsFloorRun(s, Crashy(n), floors, moves)
        ensures var pel := floors[|moves|].x.q.g.pel; 0 in pel ==> pel[0].deliveries <= Crashes.MostDeliveries(s, n)
      {
        InnocentsAreRun(s, Crashy(n), floors, moves, |moves|, 0);
      }
    } else {
      var t, now := BoundBrokenInTheQueue(s, n);
      assert t.floors[|t.moves|] == t.Last();
    }
  }
}
