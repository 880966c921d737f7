/** When the bound of `CrashIsolation` holds: exactly when it does not exceed `max_deliveries`. Past
    that, an innocent entry can be on its way to the DLQ unrun, no longer a suspect, when the
    worker's one suspect crashes it once more. */
module CrashIsolationLimit {
  import opened QueueTypes
  import opened Scripts
  import opened Passes
  import opened Behaviors
  import opened Sets
  import opened CrashIsolation

  /** No run gets to deliver `x` more often than the bound. */
  ghost predicate Isolated(s: Settings, crashy: seq<EntryId>, x: EntryId)
    requires 1 <= s.SuspectThreshold()
  {
    forall states: seq<Fleet>, acts: seq<Event> ::
      IsFleetRun(s, crashy, states, acts) && x in states[|acts|].pel ==>
        states[|acts|].pel[x].deliveries <= MostDeliveries(s, |crashy|)
  }

  // ---------------------------------------------------------------- sums of rooms

  lemma {:induction false} RoomsSame(f: Fleet, g: Fleet, crashy: seq<EntryId>, limit: nat)
    requires forall c :: c in crashy ==> Room(g, c, limit) == Room(f, c, limit)
    ensures RoomAll(g, crashy, limit) == RoomAll(f, crashy, limit)
  {
    RoomNeverGrows(f, g, crashy, limit);
    RoomNeverGrows(g, f, crashy, limit);
  }

  lemma {:induction false} RoomsOneLess(f: Fleet, g: Fleet, crashy: seq<EntryId>, limit: nat, c: EntryId)
    requires Distinct(crashy) && c in crashy && Room(g, c, limit) == Room(f, c, limit) - 1
    requires forall k :: k in crashy && k != c ==> Room(g, k, limit) == Room(f, k, limit)
    ensures RoomAll(g, crashy, limit) == RoomAll(f, crashy, limit) - 1
    decreases |crashy|
  {
    assert crashy[0] in crashy;
    if crashy[0] == c {
      RoomsSame(f, g, crashy[1..], limit);
    } else {
      RoomsOneLess(f, g, crashy[1..], limit, c);
    }
  }

  lemma {:induction false} SomeRoom(f: Fleet, crashy: seq<EntryId>, limit: nat) returns (c: EntryId)
    requires 0 < RoomAll(f, crashy, limit)
    ensures IsFirstWithRoom(f, crashy, limit, c)
    decreases |crashy|
  {
    if 0 < Room(f, crashy[0], limit) {
      c := crashy[0];
    } else {
      c := SomeRoom(f, crashy[1..], limit);
      var i :| 0 <= i < |crashy[1..]| && crashy[1..][i] == c && forall k :: 0 <= k < i ==> Room(f, crashy[1..][k], limit) == 0;
      assert crashy[i + 1] == c && forall k :: 0 <= k < i + 1 ==> Room(f, crashy[k], limit) == 0 by {
        assert forall k :: 1 <= k < i + 1 ==> crashy[k] == crashy[1..][k - 1];
      }
    }
  }

  ghost predicate IsFirstWithRoom(f: Fleet, crashy: seq<EntryId>, limit: nat, c: EntryId) {
    && c in crashy && 0 < Room(f, c, limit)
    && exists i :: 0 <= i < |crashy| && crashy[i] == c && forall k :: 0 <= k < i ==> Room(f, crashy[k], limit) == 0
  }

  lemma {:induction false} FreshRoom(f: Fleet, crashy: seq<EntryId>, limit: nat)
    requires IsFresh(f)
    ensures RoomAll(f, crashy, limit) == |crashy| * limit
    decreases |crashy|
  {
    if crashy != [] {
      FreshRoom(f, crashy[1..], limit);
      OneMore(|crashy|, limit);
    }
  }

  // ---------------------------------------------------------------- building a bad run

  /** A run under construction, until `now`. */
  datatype Story = Story(states: seq<Fleet>, acts: seq<Event>, now: int)
  {
    ghost predicate Valid(s: Settings, crashy: seq<EntryId>) {
      && IsFleetRun(s, crashy, states, acts) && ShapeOk(Last())
      && Clocked(acts, now) && forall e :: e in Last().pel ==> Last().pel[e].since <= now
    }

    /** Entries were fetched in the order of their ids, up to `most`, and nothing was finished. */
    ghost predicate Orderly(most: nat) {
      |states| == |acts| + 1 && IsInitial(Last().seen) && forall i {:trigger acts[i]} :: 0 <= i < |acts| ==> InOrder(states[i], acts[i], most)
    }

    function Last(): Fleet {
      if states == [] then Fleet(map[], {}, map[]) else states[|states| - 1]
    }
  }

  function TimeOf(a: Event): Option<int> {
    match a
    case Fetch(_, _, now) => Some(now)
    case Reclaim(_, _, now) => Some(now)
    case Beat(_, now) => Some(now)
    case _ => None
  }

  /** The clock starts at 0, never goes back, and has not passed `upto`. */
  ghost predicate Clocked(acts: seq<Event>, upto: int) {
    && 0 <= upto && (forall i :: 0 <= i < |acts| && TimeOf(acts[i]).Some? ==> 0 <= TimeOf(acts[i]).value <= upto)
    && forall i, k :: 0 <= i < k < |acts| && TimeOf(acts[i]).Some? && TimeOf(acts[k]).Some? ==>
         TimeOf(acts[i]).value <= TimeOf(acts[k]).value
  }

  lemma ClockedNext(acts: seq<Event>, was: int, a: Event, now: int)
    requires Clocked(acts, was) && was <= now && (TimeOf(a).Some? ==> TimeOf(a).value == now)
    ensures Clocked(acts + [a], now)
  {
    var all := acts + [a];
    assert forall i :: 0 <= i < |acts| ==> all[i] == acts[i];
  }

  ghost predicate IsInitial(seen: set<EntryId>) {
    forall e, k: nat :: e in seen && k < e ==> k in seen
  }

  ghost predicate IsNext(seen: set<EntryId>, e: EntryId) {
    forall k :: k in seen <==> 0 <= k < e
  }

  ghost predicate InOrder(f: Fleet, a: Event, most: nat) {
    match a
    case Fetch(w, e, _) => w == 0 && IsNext(f.seen, e) && e <= most
    case Reclaim(w, _, _) => w == 0
    case Crash(_, _) => true
    case _ => false
  }

  lemma Extend(s: Settings, crashy: seq<EntryId>, r: Story, a: Event, y: Fleet, now: int) returns (t: Story)
    requires r.Valid(s, crashy) && Happens(s, crashy, r.Last(), a, y) && ShapeOk(y)
    requires r.now <= now && (TimeOf(a).Some? ==> TimeOf(a).value == now) && forall e :: e in y.pel ==> y.pel[e].since <= now
    ensures t.Valid(s, crashy) && t.Last() == y && t.now == now
    ensures forall most: nat :: r.Orderly(most) && InOrder(r.Last(), a, most) && IsInitial(y.seen) ==> t.Orderly(most)
  {
    t := Story(r.states + [y], r.acts + [a], now);
    ClockedNext(r.acts, r.now, a, now);
    forall i {:trigger t.acts[i]} | 0 <= i < |t.acts|
      ensures HappensOf(s, crashy)(t.states[i], t.acts[i], t.states[i + 1])
    {
      if i < |r.acts| {
        assert HappensOf(s, crashy)(r.states[i], r.acts[i], r.states[i + 1]);
      }
    }
  }

  /** `g` is `f` with `e` handed to worker 0. */
  ghost predicate Brought(s: Settings, crashy: seq<EntryId>, f: Fleet, g: Fleet, e: EntryId) {
    && g.running == f.running[e := 0] && g.seen == f.seen + {e} && g.pel.Keys == f.pel.Keys + {e}
    && (forall k :: k in f.pel ==> NextCount(g, k) == NextCount(f, k))
    && (e !in f.pel ==> NextCount(g, e) == 1)
    && forall c, limit: nat :: c in crashy && limit <= s.maxDeliveries ==> Room(g, c, limit) == Room(f, c, limit)
  }

  lemma ClaimSingle(s: Settings, p: Pass, w: Worker, e: EntryId, now: int)
    requires e in p.pel && p.kept == [] && !PutBack(s, p, e)
    ensures ClaimAll(s, p, w, [e], now).kept == [e]
  {
    assert [e][1..] == [];
    assert ClaimAll(s, p, w, [e], now) == ClaimOne(s, p, w, e, now);
  }

  lemma ClaimedByNow(s: Settings, p: Pass, w: Worker, e: EntryId, now: int)
    requires e in p.pel && p.kept == [] && !PutBack(s, p, e) && forall k :: k in p.pel ==> p.pel[k].since <= now
    ensures forall k :: k in ClaimAll(s, p, w, [e], now).pel ==> ClaimAll(s, p, w, [e], now).pel[k].since <= now
  {
    assert [e][1..] == [];
    assert ClaimAll(s, p, w, [e], now) == ClaimOne(s, p, w, e, now);
  }

  /** The fleet after worker 0 reclaimed `e`. */
  function AfterClaim(s: Settings, f: Fleet, e: EntryId, now: int): Fleet
    requires e in f.pel
  {
    Fleet(Claims(s, f, 0, [e], now).pel, f.seen, f.running[e := 0])
  }

  lemma ClaimHappens(s: Settings, crashy: seq<EntryId>, f: Fleet, e: EntryId, now: int)
    requires e in f.pel && Possible(s, crashy, f, Reclaim(0, [e], now)) && Claims(s, f, 0, [e], now).kept == [e]
    ensures Happens(s, crashy, f, Reclaim(0, [e], now), AfterClaim(s, f, e, now))
  {
    assert f.running[e := 0] == f.running + map k | k in [e] :: 0;
  }

  /** Hand `e` to worker 0 by a reclaim. */
  lemma BringBack(s: Settings, crashy: seq<EntryId>, f: Fleet, e: EntryId, now: int) returns (a: Event, y: Fleet)
    requires ShapeOk(f) && e !in f.running && e in f.pel && now - f.pel[e].since >= s.lease
    requires RunsSuspect(s, f, 0) ==> !s.IsSuspect(NextCount(f, e))
    requires forall k :: k in f.pel ==> f.pel[k].since <= now
    ensures Happens(s, crashy, f, a, y) && a == Reclaim(0, [e], now) && y.running == f.running[e := 0] && y.seen == f.seen
    ensures forall k :: k in y.pel ==> y.pel[k].since <= now
  {
    a, y := Reclaim(0, [e], now), AfterClaim(s, f, e, now);
    var p := Pass(f.pel, Slots(s, f, 0), []);
    ClaimSingle(s, p, 0, e, now);
    ClaimedByNow(s, p, 0, e, now);
    ClaimHappens(s, crashy, f, e, now);
  }

  /** Hand `e` to worker 0, by a fetch or by a reclaim. */
  lemma Bring(s: Settings, crashy: seq<EntryId>, r: Story, e: EntryId) returns (t: Story)
    requires r.Valid(s, crashy) && e !in r.Last().running && (e in r.Last().seen ==> e in r.Last().pel)
    requires e in r.Last().pel && RunsSuspect(s, r.Last(), 0) ==> !s.IsSuspect(NextCount(r.Last(), e))
    ensures t.Valid(s, crashy) && Brought(s, crashy, r.Last(), t.Last(), e)
    ensures forall most: nat :: r.Orderly(most) && (e !in r.Last().pel ==> IsNext(r.Last().seen, e) && e <= most) ==> t.Orderly(most)
  {
    var f, now := r.Last(), r.now + s.lease;
    var a: Event;
    var y: Fleet;
    if e in f.pel {
      a, y := BringBack(s, crashy, f, e, now);
      ReclaimFacts(s, crashy, f, a, y);
    } else {
      a := Fetch(0, e, now);
      y := Fleet(f.pel[e := Lease(0, now, 1)], f.seen + {e}, f.running[e := 0]);
    }
    forall c, limit: nat | c in crashy && limit <= s.maxDeliveries ensures Room(y, c, limit) == Room(f, c, limit) {
      RoomStep(s, crashy, f, a, y, c, limit);
    }
    forall k | k in f.pel ensures NextCount(y, k) == NextCount(f, k) {
      CountStep(s, crashy, f, a, y, k);
    }
    t := Extend(s, crashy, r, a, y, now);
  }

  /** Nobody is running anything, and `x` has been in `k` crashes, each by one crashy entry. */
  ghost predicate AfterCrashes(s: Settings, crashy: seq<EntryId>, f: Fleet, x: EntryId, k: nat)
    requires 1 <= s.SuspectThreshold()
  {
    && f.running == map[] && f.pel.Keys == f.seen
    && (if x in f.pel then NextCount(f, x) == k + 1 else k == 0)
    && RoomAll(f, crashy, s.maxDeliveries) == |crashy| * s.maxDeliveries - k
    && (k <= s.maxDeliveries ==>
          RoomAll(f, crashy, s.SuspectThreshold() - 1) == |crashy| * (s.SuspectThreshold() - 1) - k)
  }

  /** `g` is `f`, in which nobody ran anything, with `x` and `c` handed to worker 0. */
  ghost predicate BothBrought(s: Settings, crashy: seq<EntryId>, f: Fleet, g: Fleet, x: EntryId, c: EntryId) {
    && g.running == map[x := 0, c := 0] && g.seen == f.seen + {x, c} && g.pel.Keys == f.pel.Keys + {x, c}
    && NextCount(g, x) == (if x in f.pel then NextCount(f, x) else 1)
    && forall k, limit: nat :: k in crashy && limit <= s.maxDeliveries ==> Room(g, k, limit) == Room(f, k, limit)
  }

  /** Whichever of the two was not delivered before is next. */
  ghost predicate AreNext(f: Fleet, x: EntryId, c: EntryId) {
    (x !in f.pel ==> IsNext(f.seen, x)) && (c !in f.pel ==> IsNext(f.seen + {x}, c))
  }

  lemma BringBoth(s: Settings, crashy: seq<EntryId>, r: Story, x: EntryId, c: EntryId) returns (t: Story)
    requires r.Valid(s, crashy) && r.Last().running == map[] && r.Last().pel.Keys == r.Last().seen && x != c
    requires var f := r.Last(); s.IsSuspect(if x in f.pel then NextCount(f, x) else 1) && c in f.pel ==> !s.IsSuspect(NextCount(f, c))
    ensures t.Valid(s, crashy) && BothBrought(s, crashy, r.Last(), t.Last(), x, c)
    ensures forall most: nat ::
              r.Orderly(most) && x <= most && c <= most && AreNext(r.Last(), x, c) ==> t.Orderly(most)
  {
    var r1 := Bring(s, crashy, r, x);
    t := Bring(s, crashy, r1, c);
    assert t.Last().running == map[x := 0, c := 0];
  }

  /** One more crash: `x` next to a job that is not a suspect yet, or, once `x` is past the
      delivery limit, next to any. */
  lemma OneMoreCrash(s: Settings, crashy: seq<EntryId>, r: Story, x: EntryId, k: nat) returns (t: Story)
    requires s.Valid() && 2 <= s.maxDeliveries && Distinct(crashy) && x !in crashy
    requires r.Valid(s, crashy) && AfterCrashes(s, crashy, r.Last(), x, k)
    requires s.maxDeliveries < MostDeliveries(s, |crashy|) && k < |crashy| * s.maxDeliveries
    ensures t.Valid(s, crashy) && AfterCrashes(s, crashy, t.Last(), x, k + 1)
    ensures r.Orderly(|crashy|) && Numbered(crashy, x) ==> t.Orderly(|crashy|)
  {
    var f := r.Last();
    var limit := if k < s.maxDeliveries then s.SuspectThreshold() - 1 else s.maxDeliveries;
    assert MostDeliveries(s, |crashy|) == 1 + |crashy| * (s.SuspectThreshold() - 1);
    var c := SomeRoom(f, crashy, limit);
    if r.Orderly(|crashy|) && Numbered(crashy, x) {
      InOrderNext(f, crashy, x, limit, c);
    }
    var r2 := BringBoth(s, crashy, r, x, c);
    var g := r2.Last();
    CrashCounts(s, crashy, f, g, x, c, k, limit);
    t := Extend(s, crashy, r2, Crash(0, c), g.(running := map[]), r2.now);
  }

  lemma CrashCounts(s: Settings, crashy: seq<EntryId>, f: Fleet, g: Fleet, x: EntryId, c: EntryId, k: nat, limit: nat)
    requires s.Valid() && 2 <= s.maxDeliveries && Distinct(crashy) && x !in crashy && c in crashy
    requires AfterCrashes(s, crashy, f, x, k) && ShapeOk(g) && BothBrought(s, crashy, f, g, x, c)
    requires limit == (if k < s.maxDeliveries then s.SuspectThreshold() - 1 else s.maxDeliveries) && 0 < Room(f, c, limit)
    ensures Happens(s, crashy, g, Crash(0, c), g.(running := map[]))
    ensures AfterCrashes(s, crashy, g.(running := map[]), x, k + 1)
  {
    var y := g.(running := map[]);
    OneRoomLess(s, crashy, f, g, y, c, s.maxDeliveries);
    if k < s.maxDeliveries {
      OneRoomLess(s, crashy, f, g, y, c, limit);
    }
    CountStep(s, crashy, g, Crash(0, c), y, x);
  }

  /** `x` is the first entry ever added, and the crashy ones are the next. */
  ghost predicate Numbered(crashy: seq<EntryId>, x: EntryId) {
    x == 0 && forall i :: 0 <= i < |crashy| ==> crashy[i] == i + 1
  }

  /** The first crashy entry with room left is one that was delivered before, or the next to be. */
  lemma InOrderNext(f: Fleet, crashy: seq<EntryId>, x: EntryId, limit: nat, c: EntryId)
    requires Numbered(crashy, x) && IsInitial(f.seen) && f.pel.Keys == f.seen && IsFirstWithRoom(f, crashy, limit, c)
    ensures AreNext(f, x, c)
  {
    assert forall e: nat :: e in f.seen ==> 0 in f.seen;
    if c !in f.seen {
      assert Room(f, c, limit) == limit;
      var i :| 0 <= i < |crashy| && crashy[i] == c && forall k :: 0 <= k < i ==> Room(f, crashy[k], limit) == 0;
      forall k: nat | k < c ensures k in f.seen + {x} {
        if 0 < k {
          assert Room(f, crashy[k - 1], limit) == 0;
        }
      }
    }
  }

  lemma OneRoomLess(s: Settings, crashy: seq<EntryId>, f: Fleet, g: Fleet, y: Fleet, c: EntryId, limit: nat)
    requires Distinct(crashy) && c in crashy && ShapeOk(g) && limit <= s.maxDeliveries
    requires forall k :: k in crashy ==> Room(g, k, limit) == Room(f, k, limit)
    requires Happens(s, crashy, g, Crash(0, c), y) && g.pel[c].deliveries <= limit
    requires forall k :: k in crashy && k in g.running ==> k == c
    ensures RoomAll(y, crashy, limit) == RoomAll(f, crashy, limit) - 1
  {
    RoomsSame(f, g, crashy, limit);
    forall k | k in crashy ensures Room(y, k, limit) == Room(g, k, limit) - if k == c then 1 else 0 {
      RoomStep(s, crashy, g, Crash(0, c), y, k, limit);
    }
    RoomsOneLess(g, y, crashy, limit, c);
  }

  lemma {:induction false} ManyCrashes(s: Settings, crashy: seq<EntryId>, x: EntryId, k: nat) returns (t: Story)
    requires s.Valid() && 2 <= s.maxDeliveries && Distinct(crashy) && x !in crashy
    requires s.maxDeliveries < MostDeliveries(s, |crashy|) && k <= |crashy| * s.maxDeliveries
    ensures t.Valid(s, crashy) && AfterCrashes(s, crashy, t.Last(), x, k)
    ensures Numbered(crashy, x) ==> t.Orderly(|crashy|)
    decreases k
  {
    if k == 0 {
      var f := Fleet(map[], {}, map[]);
      t := Story([f], [], 0);
      FreshRoom(f, crashy, s.maxDeliveries);
      FreshRoom(f, crashy, s.SuspectThreshold() - 1);
    } else {
      t := ManyCrashes(s, crashy, x, k - 1);
      t := OneMoreCrash(s, crashy, t, x, k - 1);
    }
  }

  /** A run that breaks the bound; it fetches entries in the order of their ids, if they are numbered so,
      and its clock never goes back. */
  lemma BadRun(s: Settings, crashy: seq<EntryId>, x: EntryId) returns (t: Story)
    requires s.Valid() && 2 <= s.maxDeliveries && Distinct(crashy) && x !in crashy
    requires s.maxDeliveries < MostDeliveries(s, |crashy|)
    ensures t.Valid(s, crashy) && x in t.Last().pel && t.Last().pel[x].deliveries > MostDeliveries(s, |crashy|)
    ensures Numbered(crashy, x) ==> t.Orderly(|crashy|)
  {
    var k := MostDeliveries(s, |crashy|);
    CrashesSuffice(|crashy|, s.SuspectThreshold() - 1, s.maxDeliveries);
    var r := ManyCrashes(s, crashy, x, k);
    t := Bring(s, crashy, r, x);
    assert NextCount(t.Last(), x) == k + 1;
  }

  lemma BoundBroken(s: Settings, crashy: seq<EntryId>, x: EntryId)
    requires s.Valid() && 2 <= s.maxDeliveries && Distinct(crashy) && x !in crashy
    requires s.maxDeliveries < MostDeliveries(s, |crashy|)
    ensures !Isolated(s, crashy, x)
  {
    var t := BadRun(s, crashy, x);
    assert t.states[|t.acts|] == t.Last();
  }

  lemma CrashesSuffice(n: nat, limit: nat, most: nat)
    requires limit < most < 1 + n * limit
    ensures 1 + n * limit <= n * most
  {
    assert n * (limit + 1) <= n * most;
  }

  /** The bound holds in every run exactly when it stays within `max_deliveries`. */
  lemma IsolatedIff(s: Settings, crashy: seq<EntryId>, x: EntryId)
    requires s.Valid() && 2 <= s.maxDeliveries && Distinct(crashy) && x !in crashy
    ensures Isolated(s, crashy, x) <==> MostDeliveries(s, |crashy|) <= s.maxDeliveries
  {
    if MostDeliveries(s, |crashy|) <= s.maxDeliveries {
      forall states: seq<Fleet>, acts: seq<Event> | IsFleetRun(s, crashy, states, acts) && x in states[|acts|].pel
        ensures states[|acts|].pel[x].deliveries <= MostDeliveries(s, |crashy|)
      {
        InnocentsAreIsolated(s, crashy, states, acts, |acts|, x);
      }
    } else {
      BoundBroken(s, crashy, x);
    }
  }
}
