/** Crash isolation (ADR-035): jobs that kill their worker cannot drag other jobs to the dead-letter
    queue, because a worker runs at most one suspect at a time. */
module CrashIsolation {
  import opened QueueTypes
  import opened Scripts
  import opened Passes
  import opened Behaviors

  /** Who is running what. `seen` holds every entry ever delivered; an entry in `seen` but not in
      the PEL is finished. Running entries are kept alive by heartbeats, so an entry's lease runs
      out only once its worker has crashed. */
  datatype Fleet = Fleet(pel: map<EntryId, Lease>, seen: set<EntryId>, running: map<EntryId, Worker>)

  datatype Event =
    | Fetch(w: Worker, e: EntryId, now: int)
    | Reclaim(w: Worker, ids: seq<EntryId>, now: int)
    | Beat(e: EntryId, now: int)
    | Crash(w: Worker, c: EntryId)
    | Finish(e: EntryId)

  predicate IsFresh(f: Fleet) {
    f == Fleet(map[], {}, map[])
  }

  predicate RunsSuspect(s: Settings, f: Fleet, w: Worker) {
    exists e :: e in f.running && f.running[e] == w && e in f.pel && s.IsSuspect(f.pel[e].deliveries)
  }

  /** The suspect slots a worker asks the reaper for. */
  function Slots(s: Settings, f: Fleet, w: Worker): nat {
    if RunsSuspect(s, f, w) then 0 else 1
  }

  /** A crashy entry crashes its worker unless it is past the delivery limit: then it is moved to
      the DLQ without being run. */
  ghost predicate Possible(s: Settings, crashy: seq<EntryId>, f: Fleet, a: Event) {
    match a
    case Fetch(_, e, _) => e !in f.seen
    case Reclaim(_, ids, now) =>
      && (forall i, k :: 0 <= i < k < |ids| ==> ids[i] < ids[k])
      && forall e :: e in ids ==> e in f.pel && e !in f.running && now - f.pel[e].since >= s.lease
    case Beat(e, _) => e in f.running && e in f.pel
    case Crash(w, c) =>
      c in crashy && c in f.running && f.running[c] == w && c in f.pel && f.pel[c].deliveries <= s.maxDeliveries
    case Finish(e) => e in f.running && e in f.pel && (e in crashy ==> f.pel[e].deliveries > s.maxDeliveries)
  }

  function Claims(s: Settings, f: Fleet, w: Worker, ids: seq<EntryId>, now: int): Pass
    requires forall e :: e in ids ==> e in f.pel
  {
    ClaimAll(s, Pass(f.pel, Slots(s, f, w), []), w, ids, now)
  }

  ghost predicate Happens(s: Settings, crashy: seq<EntryId>, x: Fleet, a: Event, y: Fleet) {
    && Possible(s, crashy, x, a)
    && match a
       case Fetch(w, e, now) => y == Fleet(x.pel[e := Lease(w, now, 1)], x.seen + {e}, x.running[e := w])
       case Reclaim(w, ids, now) =>
         var p := Claims(s, x, w, ids, now);
         y == Fleet(p.pel, x.seen, x.running + map e | e in p.kept :: w)
       case Beat(e, now) => y == x.(pel := x.pel[e := x.pel[e].(since := now)])
       case Crash(w, _) => y == x.(running := map e | e in x.running && x.running[e] != w :: x.running[e])
       case Finish(e) => y == Fleet(x.pel - {e}, x.seen, x.running - {e})
  }

  ghost function HappensOf(s: Settings, crashy: seq<EntryId>): (Fleet, Event, Fleet) -> bool {
    (x, a, y) => Happens(s, crashy, x, a, y)
  }

  ghost predicate IsFleetRun(s: Settings, crashy: seq<EntryId>, states: seq<Fleet>, acts: seq<Event>) {
    IsExecution((f: Fleet) => IsFresh(f), HappensOf(s, crashy), states, acts)
  }

  // ---------------------------------------------------------------- the potential

  /** The delivery count an entry has in its current run, or will have in its next. */
  function NextCount(f: Fleet, e: EntryId): nat
    requires e in f.pel
  {
    if e in f.running then f.pel[e].deliveries else f.pel[e].deliveries + 1
  }

  /** How many more times `c` can crash a worker while its count is at most `limit`. */
  function Room(f: Fleet, c: EntryId, limit: nat): nat {
    if c !in f.seen then limit
    else if c !in f.pel || NextCount(f, c) > limit then 0
    else limit + 1 - NextCount(f, c)
  }

  function RoomAll(f: Fleet, crashy: seq<EntryId>, limit: nat): nat {
    if crashy == [] then 0 else Room(f, crashy[0], limit) + RoomAll(f, crashy[1..], limit)
  }

  /** The most an innocent entry can be delivered: once, and once more for each crash of a job
      that was not a suspect yet. */
  function MostDeliveries(s: Settings, n: nat): nat
    requires 1 <= s.SuspectThreshold()
  {
    1 + n * (s.SuspectThreshold() - 1)
  }

  lemma {:induction false} RoomNeverGrows(f: Fleet, g: Fleet, crashy: seq<EntryId>, limit: nat)
    requires forall c :: c in crashy ==> Room(g, c, limit) <= Room(f, c, limit)
    ensures RoomAll(g, crashy, limit) <= RoomAll(f, crashy, limit)
    decreases |crashy|
  {
    if crashy != [] {
      assert crashy[0] in crashy;
      RoomNeverGrows(f, g, crashy[1..], limit);
    }
  }

  lemma {:induction false} RoomShrinks(f: Fleet, g: Fleet, crashy: seq<EntryId>, limit: nat, c: EntryId)
    requires forall k :: k in crashy ==> Room(g, k, limit) <= Room(f, k, limit)
    requires c in crashy && Room(g, c, limit) < Room(f, c, limit)
    ensures RoomAll(g, crashy, limit) < RoomAll(f, crashy, limit)
    decreases |crashy|
  {
    assert crashy[0] in crashy;
    if c in crashy[1..] {
      RoomShrinks(f, g, crashy[1..], limit, c);
    } else {
      RoomNeverGrows(f, g, crashy[1..], limit);
    }
  }

  lemma OneMore(n: nat, k: nat)
    requires 1 <= n
    ensures n * k == k + (n - 1) * k
  {
  }

  /** `spent` may be any crashy entry with no room left. */
  lemma {:induction false} RoomAtMost(f: Fleet, crashy: seq<EntryId>, limit: nat, spent: EntryId)
    requires ShapeOk(f)
    ensures RoomAll(f, crashy, limit) <= |crashy| * limit
    ensures spent in crashy && Room(f, spent, limit) == 0 ==> RoomAll(f, crashy, limit) + limit <= |crashy| * limit
    decreases |crashy|
  {
    if crashy != [] {
      RoomAtMost(f, crashy[1..], limit, spent);
      OneMore(|crashy|, limit);
    }
  }

  // ---------------------------------------------------------------- the invariant

  ghost predicate ShapeOk(f: Fleet) {
    && f.running.Keys <= f.pel.Keys <= f.seen
    && forall e :: e in f.pel ==> 1 <= f.pel[e].deliveries
  }

  predicate IsRunningSuspect(s: Settings, f: Fleet, e: EntryId, w: Worker) {
    e in f.running && f.running[e] == w && e in f.pel && s.IsSuspect(f.pel[e].deliveries)
  }

  ghost predicate OneSuspect(s: Settings, f: Fleet) {
    forall w, e, k :: IsRunningSuspect(s, f, e, w) && IsRunningSuspect(s, f, k, w) ==> e == k
  }

  predicate WithinPotential(s: Settings, crashy: seq<EntryId>, f: Fleet, e: EntryId)
    requires e in f.pel && 2 <= s.SuspectThreshold()
  {
    NextCount(f, e) + RoomAll(f, crashy, s.SuspectThreshold() - 1) <= MostDeliveries(s, |crashy|)
  }

  ghost predicate FleetInv(s: Settings, crashy: seq<EntryId>, f: Fleet)
    requires 2 <= s.SuspectThreshold()
  {
    && ShapeOk(f) && OneSuspect(s, f)
    && forall e :: e in f.pel && e !in crashy ==> WithinPotential(s, crashy, f, e)
  }

  lemma ReclaimFacts(s: Settings, crashy: seq<EntryId>, x: Fleet, a: Event, y: Fleet)
    requires ShapeOk(x) && a.Reclaim? && Happens(s, crashy, x, a, y)
    ensures ShapeOk(y) && y.pel.Keys == x.pel.Keys
    ensures forall e :: e in x.pel ==> NextCount(y, e) == NextCount(x, e)
    ensures forall e :: e in x.running ==> e in y.running && y.running[e] == x.running[e] && y.pel[e] == x.pel[e]
    ensures forall e :: e in y.running && e !in x.running ==> y.running[e] == a.w && e in Claims(s, x, a.w, a.ids, a.now).kept
  {
    var p0 := Pass(x.pel, Slots(s, x, a.w), []);
    KeptWereClaimed(s, p0, a.w, a.ids, a.now);
    forall e | e in x.pel
      ensures NextCount(y, e) == NextCount(x, e) && 1 <= y.pel[e].deliveries && (e in x.running ==> y.pel[e] == x.pel[e])
    {
      ClaimAllEffect(s, p0, a.w, a.ids, a.now, e);
    }
  }

  /** The rule at work: a pass never leaves its worker with two suspects. */
  lemma ReclaimKeepsOne(s: Settings, crashy: seq<EntryId>, x: Fleet, a: Event, y: Fleet)
    requires ShapeOk(x) && OneSuspect(s, x) && a.Reclaim? && Happens(s, crashy, x, a, y)
    ensures OneSuspect(s, y)
  {
    ReclaimFacts(s, crashy, x, a, y);
    var p0 := Pass(x.pel, Slots(s, x, a.w), []);
    assert Undecided(p0, a.ids);
    SuspectsUseSlots(s, p0, a.w, a.ids, a.now);
    var kept := Claims(s, x, a.w, a.ids, a.now).kept;
    var suspects := Suspects(s, y.pel, kept);
    AtMostOne(suspects);
    forall w, e, k | IsRunningSuspect(s, y, e, w) && IsRunningSuspect(s, y, k, w) ensures e == k {
      assert if e in x.running then IsRunningSuspect(s, x, e, w) else e in suspects && w == a.w;
      assert if k in x.running then IsRunningSuspect(s, x, k, w) else k in suspects && w == a.w;
    }
  }

  lemma AtMostOne<T>(a: set<T>)
    requires |a| <= 1
    ensures forall x, y :: x in a && y in a ==> x == y
  {
    forall x, y | x in a && y in a ensures x == y {
      assert |a - {x}| == 0;
    }
  }

  /** Nothing but a crash changes an entry's next count, and a crash adds one to its companions'. */
  lemma CountStep(s: Settings, crashy: seq<EntryId>, x: Fleet, a: Event, y: Fleet, e: EntryId)
    requires ShapeOk(x) && Happens(s, crashy, x, a, y) && e in x.pel && e in y.pel
    ensures NextCount(y, e) == NextCount(x, e) + if a.Crash? && e in x.running && x.running[e] == a.w then 1 else 0
  {
    if a.Reclaim? {
      ReclaimFacts(s, crashy, x, a, y);
    }
  }

  lemma RoomStep(s: Settings, crashy: seq<EntryId>, x: Fleet, a: Event, y: Fleet, c: EntryId, limit: nat)
    requires ShapeOk(x) && Happens(s, crashy, x, a, y) && c in crashy && limit <= s.maxDeliveries
    ensures Room(y, c, limit) <= Room(x, c, limit)
    ensures if a.Crash? && c in x.running && x.running[c] == a.w && x.pel[c].deliveries <= limit then
              Room(y, c, limit) == Room(x, c, limit) - 1
            else
              Room(y, c, limit) == Room(x, c, limit)
  {
    if a.Reclaim? {
      ReclaimFacts(s, crashy, x, a, y);
    }
    if c in x.pel && c in y.pel {
      CountStep(s, crashy, x, a, y, c);
    }
  }

  lemma RoomAllStep(s: Settings, crashy: seq<EntryId>, x: Fleet, a: Event, y: Fleet, limit: nat)
    requires ShapeOk(x) && Happens(s, crashy, x, a, y) && limit <= s.maxDeliveries
    ensures RoomAll(y, crashy, limit) <= RoomAll(x, crashy, limit)
    ensures a.Crash? && x.pel[a.c].deliveries <= limit ==> RoomAll(y, crashy, limit) < RoomAll(x, crashy, limit)
  {
    forall c | c in crashy ensures Room(y, c, limit) <= Room(x, c, limit) {
      RoomStep(s, crashy, x, a, y, c, limit);
    }
    RoomNeverGrows(x, y, crashy, limit);
    if a.Crash? && x.pel[a.c].deliveries <= limit {
      RoomStep(s, crashy, x, a, y, a.c, limit);
      RoomShrinks(x, y, crashy, limit, a.c);
    }
  }

  /** A crash takes an innocent companion no further than the potential allows: either the
      crasher was not a suspect yet and used up its room, or it was the worker's one suspect. */
  lemma CompanionStep(s: Settings, crashy: seq<EntryId>, x: Fleet, a: Event, y: Fleet, e: EntryId)
    requires 2 <= s.SuspectThreshold() && MostDeliveries(s, |crashy|) <= s.maxDeliveries
    requires FleetInv(s, crashy, x) && Happens(s, crashy, x, a, y) && e in y.pel && e !in crashy
    ensures WithinPotential(s, crashy, y, e)
  {
    var limit := s.SuspectThreshold() - 1;
    RoomAllStep(s, crashy, x, a, y, limit);
    if a.Crash? {
      CountStep(s, crashy, x, a, y, e);
      if e in x.running && x.running[e] == a.w && limit < x.pel[a.c].deliveries {
        assert IsRunningSuspect(s, x, a.c, a.w);
        assert !IsRunningSuspect(s, x, e, a.w);
        RoomAtMost(x, crashy, limit, a.c);
        assert MostDeliveries(s, |crashy|) == 1 + |crashy| * limit;
      }
    } else if e in x.pel {
      CountStep(s, crashy, x, a, y, e);
    } else if a.Reclaim? {
      ReclaimFacts(s, crashy, x, a, y);
    } else {
      RoomAtMost(x, crashy, limit, e);
      assert MostDeliveries(s, |crashy|) == 1 + |crashy| * limit;
    }
  }

  lemma FleetStep(s: Settings, crashy: seq<EntryId>, x: Fleet, a: Event, y: Fleet)
    requires 2 <= s.SuspectThreshold() && MostDeliveries(s, |crashy|) <= s.maxDeliveries
    requires FleetInv(s, crashy, x) && Happens(s, crashy, x, a, y)
    ensures FleetInv(s, crashy, y)
  {
    if a.Reclaim? {
      ReclaimFacts(s, crashy, x, a, y);
      ReclaimKeepsOne(s, crashy, x, a, y);
    } else {
      forall w, e, k | IsRunningSuspect(s, y, e, w) && IsRunningSuspect(s, y, k, w) ensures e == k {
        assert IsRunningSuspect(s, x, e, w) && IsRunningSuspect(s, x, k, w);
      }
    }
    forall e | e in y.pel && e !in crashy ensures WithinPotential(s, crashy, y, e) {
      CompanionStep(s, crashy, x, a, y, e);
    }
  }

  ghost function FleetInvOf(s: Settings, crashy: seq<EntryId>): Fleet -> bool
    requires 2 <= s.SuspectThreshold()
  {
    f => FleetInv(s, crashy, f)
  }

  /** The theorem: whatever `|crashy|` jobs crash and however the workers share the work, no other
      entry is delivered more than `MostDeliveries` times, so none is dead-lettered unrun. */
  lemma InnocentsAreIsolated(s: Settings, crashy: seq<EntryId>, states: seq<Fleet>, acts: seq<Event>, k: nat, e: EntryId)
    requires s.Valid() && 2 <= s.maxDeliveries && MostDeliveries(s, |crashy|) <= s.maxDeliveries
    requires IsFleetRun(s, crashy, states, acts) && k < |states| && e in states[k].pel && e !in crashy
    ensures states[k].pel[e].deliveries <= MostDeliveries(s, |crashy|) <= s.maxDeliveries
  {
    forall x, a, y | FleetInvOf(s, crashy)(x) && HappensOf(s, crashy)(x, a, y) ensures FleetInvOf(s, crashy)(y) {
      FleetStep(s, crashy, x, a, y);
    }
    Always((f: Fleet) => IsFresh(f), HappensOf(s, crashy), FleetInvOf(s, crashy), states, acts, k);
    assert FleetInvOf(s, crashy)(states[k]);
    assert WithinPotential(s, crashy, states[k], e);
  }

  /** One crashy job: its companions are delivered at most `SuspectThreshold` times, whatever the
      settings. */
  lemma OneCrashyJob(s: Settings, c: EntryId, states: seq<Fleet>, acts: seq<Event>, k: nat, e: EntryId)
    requires s.Valid() && 2 <= s.maxDeliveries
    requires IsFleetRun(s, [c], states, acts) && k < |states| && e in states[k].pel && e != c
    ensures states[k].pel[e].deliveries <= s.SuspectThreshold() <= s.maxDeliveries
  {
    InnocentsAreIsolated(s, [c], states, acts, k, e);
  }
}
