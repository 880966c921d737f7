/** Crash isolation (ADR-035) in runs of the whole queue: the protocol's own steps, by workers that
    crash, run at most one suspect and keep the leases of what they run alive. */
module CrashRuns {
  import opened QueueTypes
  import opened Scripts
  import opened Protocol
  import opened Invariants
  import Behaviors
  import Reachability = Reachable
  import opened Guarantees
  import opened Leases
  import Crashes = CrashIsolation

  /** The queue, who is running which entry, and which entries were ever delivered. */
  datatype Floor = Floor(x: System, running: map<EntryId, Worker>, seen: set<EntryId>)
  {
    function Fleet(): Crashes.Fleet {
      Crashes.Fleet(x.q.g.pel, seen, running)
    }
  }

  /** A script call, or a worker brought down by a crashy entry that it runs. */
  datatype Move = Calls(a: Action) | Dies(w: Worker, c: EntryId)

  /** A worker disposes of an entry that it runs; of a crashy one only when it is past the delivery limit,
      where it is not run. */
  predicate InHand(s: Settings, crashy: seq<EntryId>, p: Floor, e: EntryId)
    requires e in p.x.q.g.pel
  {
    e in p.running && (e in crashy ==> s.maxDeliveries < p.x.q.g.pel[e].deliveries)
  }

  /** Heartbeats keep the leases of running entries from expiring, and stop with the run; the reaper asks
      for as many suspect slots as its worker has left; and an entry is only given up on when it was
      delivered too often. */
  predicate Behaves(s: Settings, crashy: seq<EntryId>, p: Floor, a: Action) {
    match a
    case DoHeartbeat(w, e, _) => Owns(p.x.q.g, w, e) ==> e in p.running
    case DoReclaim(w, _, ids, _, slots, _) => slots == Crashes.Slots(s, p.Fleet(), w) && forall e :: e in ids ==> e !in p.running
    case DoCommit(_, e, _, _) => e in p.x.q.g.pel ==> InHand(s, crashy, p, e)
    case DoRetry(w, e, _, _, _) => Owns(p.x.q.g, w, e) ==> InHand(s, crashy, p, e)
    case DoDead(w, e, reason, _, _, _, _) =>
      Owns(p.x.q.g, w, e) ==>
        InHand(s, crashy, p, e) && (reason.MaxDeliveries? ==> s.maxDeliveries < p.x.q.g.pel[e].deliveries)
    case _ => true
  }

  /** What runs after a call: what was fetched or reclaimed, and what ran before and is still pending. */
  function RunningAfter(s: Settings, p: Floor, a: Action, y: System): map<EntryId, Worker>
    requires a.DoReclaim? ==> forall e :: e in a.ids ==> e in p.x.q.g.pel && e !in a.gone
  {
    match a
    case DoFetch(w, _, _) => p.running + map e | e in y.q.g.pel && p.x.q.g.delivered <= e :: w
    case DoReclaim(w, _, ids, gone, slots, now) =>
      p.running + map e | e in ReclaimPass(s, p.x.q.g, w, ids, gone, slots, now).kept :: w
    case _ => map e | e in p.running && e in y.q.g.pel :: p.running[e]
  }

  ghost predicate Moves(s: Settings, crashy: seq<EntryId>, p: Floor, m: Move, r: Floor) {
    match m
    case Dies(w, c) =>
      && Crashes.Possible(s, crashy, p.Fleet(), Crashes.Crash(w, c))
      && r == p.(running := map e | e in p.running && p.running[e] != w :: p.running[e])
    case Calls(a) =>
      Next(s, p.x, a, r.x) && Behaves(s, crashy, p, a) && NotesAfter(s, p, a, r)
  }

  /** What is noted after a call of who runs what, and of what was delivered. */
  ghost predicate NotesAfter(s: Settings, p: Floor, a: Action, r: Floor) {
    && (a.DoReclaim? ==> forall e :: e in a.ids ==> e in p.x.q.g.pel && e !in a.gone)
    && r.running == RunningAfter(s, p, a, r.x) && r.seen == p.seen + r.x.q.g.pel.Keys
  }

  predicate IsOpening(p: Floor) {
    IsInit(p.x) && p.running == map[] && p.seen == {}
  }

  ghost function MovesOf(s: Settings, crashy: seq<EntryId>): (Floor, Move, Floor) -> bool {
    (p, m, r) => Moves(s, crashy, p, m, r)
  }

  ghost predicate IsFloorRun(s: Settings, crashy: seq<EntryId>, floors: seq<Floor>, moves: seq<Move>) {
    Behaviors.IsExecution((p: Floor) => IsOpening(p), MovesOf(s, crashy), floors, moves)
  }

  // ---------------------------------------------------------------- the queue's steps are the fleet's

  ghost predicate Bounded(s: Settings, crashy: seq<EntryId>) {
    s.Valid() && 2 <= s.maxDeliveries && Crashes.MostDeliveries(s, |crashy|) <= s.maxDeliveries
  }

  ghost predicate SeenOk(g: Group, seen: set<EntryId>) {
    forall e :: e in seen ==> e < g.delivered
  }

  /** The fleet after a read led to `r`: whatever is new in its PEL now runs on `w`. */
  function AfterFetch(f: Crashes.Fleet, from: EntryId, r: Group, w: Worker): Crashes.Fleet {
    Crashes.Fleet(r.pel, f.seen + r.pel.Keys, f.running + map e | e in r.pel && from <= e :: w)
  }

  ghost predicate Tracks(s: Settings, crashy: seq<EntryId>, g: Group, f: Crashes.Fleet)
    requires Bounded(s, crashy)
  {
    f.pel == g.pel && SeenOk(g, f.seen) && Crashes.FleetInvOf(s, crashy)(f)
  }

  function FetchOneInFleet(f: Crashes.Fleet, w: Worker, e: EntryId, now: int): Crashes.Fleet {
    Crashes.Fleet(f.pel[e := Lease(w, now, 1)], f.seen + {e}, f.running[e := w])
  }

  lemma OneFetched(s: Settings, crashy: seq<EntryId>, g: Group, w: Worker, now: int, f: Crashes.Fleet)
    requires Bounded(s, crashy) && g.delivered <= g.nextId && Tracks(s, crashy, g, f)
    requires NextFrom(g.stream, g.delivered, g.nextId) < g.nextId
    ensures Tracks(s, crashy, FetchOne(g, w, now), FetchOneInFleet(f, w, NextFrom(g.stream, g.delivered, g.nextId), now))
    ensures forall k :: k in g.pel ==> k < g.delivered
  {
    var e := NextFrom(g.stream, g.delivered, g.nextId);
    assert Crashes.FleetInv(s, crashy, f);
    Crashes.FleetStep(s, crashy, f, Crashes.Fetch(w, e, now), FetchOneInFleet(f, w, e, now));
  }

  predicate IsFirstNew(r: Group, from: EntryId, e: EntryId) {
    e in r.pel && from <= e && forall k :: k in r.pel && from <= k ==> e <= k
  }

  lemma FetchUnrolls(g: Group, w: Worker, count: nat, now: int)
    requires 0 < count && g.delivered <= g.nextId && NextFrom(g.stream, g.delivered, g.nextId) < g.nextId
    ensures FetchAll(FetchOne(g, w, now), w, count - 1, now) == FetchAll(g, w, count, now)
    ensures FetchOne(g, w, now).delivered == NextFrom(g.stream, g.delivered, g.nextId) + 1
  {
  }

  lemma SameFleet(g: Group, w: Worker, count: nat, now: int, f: Crashes.Fleet)
    requires 0 < count && g.delivered <= g.nextId && NextFrom(g.stream, g.delivered, g.nextId) < g.nextId
    requires forall k :: k in g.pel ==> k < g.delivered
    ensures var g1, f1 := FetchOne(g, w, now), FetchOneInFleet(f, w, NextFrom(g.stream, g.delivered, g.nextId), now);
            && FetchAll(g1, w, count - 1, now) == FetchAll(g, w, count, now)
            && AfterFetch(f1, g1.delivered, FetchAll(g1, w, count - 1, now), w) == AfterFetch(f, g.delivered, FetchAll(g, w, count, now), w)
  {
    FetchUnrolls(g, w, count, now);
    FirstFetched(g, w, count, now);
    SameAfter(f, w, g.delivered, NextFrom(g.stream, g.delivered, g.nextId), now, FetchAll(g, w, count, now));
  }

  lemma SameAfter(f: Crashes.Fleet, w: Worker, from: EntryId, e: EntryId, now: int, r: Group)
    requires IsFirstNew(r, from, e)
    ensures AfterFetch(FetchOneInFleet(f, w, e, now), e + 1, r, w) == AfterFetch(f, from, r, w)
  {
    assert f.seen + {e} + r.pel.Keys == f.seen + r.pel.Keys;
    assert f.running[e := w] + (map k | k in r.pel && e + 1 <= k :: w) == f.running + map k | k in r.pel && from <= k :: w;
  }

  lemma NoneFetched(s: Settings, crashy: seq<EntryId>, g: Group, w: Worker, f: Crashes.Fleet)
    requires Bounded(s, crashy) && Tracks(s, crashy, g, f)
    ensures AfterFetch(f, g.delivered, g, w) == f
  {
    assert Crashes.FleetInv(s, crashy, f);
    assert f.seen + g.pel.Keys == f.seen;
    assert f.running + (map e | e in g.pel && g.delivered <= e :: w) == f.running;
  }

  /** A read hands out undelivered entries one by one: each is a fetch of the fleet's. */
  lemma {:induction false} FetchedKeep(s: Settings, crashy: seq<EntryId>, g: Group, w: Worker, count: nat, now: int, f: Crashes.Fleet)
    requires Bounded(s, crashy) && g.delivered <= g.nextId && Tracks(s, crashy, g, f)
    ensures var r := FetchAll(g, w, count, now); Tracks(s, crashy, r, AfterFetch(f, g.delivered, r, w))
    decreases count
  {
    if count == 0 || NextFrom(g.stream, g.delivered, g.nextId) == g.nextId {
      FetchNone(g, w, count, now);
      NoneFetched(s, crashy, g, w, f);
    } else {
      var g1, f1 := FetchOne(g, w, now), FetchOneInFleet(f, w, NextFrom(g.stream, g.delivered, g.nextId), now);
      OneFetched(s, crashy, g, w, now, f);
      FetchedKeep(s, crashy, g1, w, count - 1, now, f1);
      SameFleet(g, w, count, now, f);
    }
  }

  /** The first new entry of a read is the oldest undelivered one. */
  lemma FirstFetched(g: Group, w: Worker, count: nat, now: int)
    requires 0 < count && g.delivered <= g.nextId && NextFrom(g.stream, g.delivered, g.nextId) < g.nextId
    requires forall k :: k in g.pel ==> k < g.delivered
    ensures IsFirstNew(FetchAll(g, w, count, now), g.delivered, NextFrom(g.stream, g.delivered, g.nextId))
  {
    var e, r := NextFrom(g.stream, g.delivered, g.nextId), FetchAll(g, w, count, now);
    var g1 := FetchOne(g, w, now);
    FetchPel(g1, w, count - 1, now, e);
    forall k | k in r.pel && g.delivered <= k ensures e <= k {
      FetchPel(g1, w, count - 1, now, k);
    }
  }

  lemma {:induction false} FetchNone(g: Group, w: Worker, count: nat, now: int)
    requires g.delivered <= g.nextId && (count == 0 || NextFrom(g.stream, g.delivered, g.nextId) == g.nextId)
    ensures FetchAll(g, w, count, now) == g
    decreases count
  {
    if count > 0 {
      FetchNone(g, w, count - 1, now);
    }
  }

  // ---------------------------------------------------------------- every step

  /** Entries that were given up on are crashy ones. */
  ghost predicate OnlyCrashyGivenUp(s: Settings, crashy: seq<EntryId>, dlq: map<EntryId, DeadJob>)
    requires 1 <= s.SuspectThreshold()
  {
    forall d :: d in dlq && dlq[d].source !in crashy ==>
      dlq[d].deliveries <= Crashes.MostDeliveries(s, |crashy|) && !dlq[d].reason.MaxDeliveries?
  }

  ghost predicate FloorInv(s: Settings, crashy: seq<EntryId>, p: Floor)
    requires Bounded(s, crashy)
  {
    && Reachability.InvOf(s)(p.x) && Tracks(s, crashy, p.x.q.g, p.Fleet())
    && OnlyCrashyGivenUp(s, crashy, p.x.q.v.dlq)
  }

  /** A call that leaves the PEL alone leaves the fleet alone. */
  lemma SamePelKeeps(s: Settings, crashy: seq<EntryId>, p: Floor, r: Floor)
    requires Bounded(s, crashy) && Tracks(s, crashy, p.x.q.g, p.Fleet())
    requires r.x.q.g.pel == p.x.q.g.pel && r.x.q.g.delivered == p.x.q.g.delivered
    requires r.running == (map e | e in p.running && e in r.x.q.g.pel :: p.running[e]) && r.seen == p.seen + r.x.q.g.pel.Keys
    ensures Tracks(s, crashy, r.x.q.g, r.Fleet())
  {
    assert r.running == p.running && r.seen == p.seen;
  }

  lemma ExitKeeps(s: Settings, crashy: seq<EntryId>, p: Floor, e: EntryId, r: Floor)
    requires Bounded(s, crashy) && Tracks(s, crashy, p.x.q.g, p.Fleet())
    requires e in p.x.q.g.pel && InHand(s, crashy, p, e)
    requires r.x.q.g.pel == p.x.q.g.pel - {e} && r.x.q.g.delivered == p.x.q.g.delivered
    requires r.running == (map k | k in p.running && k in r.x.q.g.pel :: p.running[k]) && r.seen == p.seen + r.x.q.g.pel.Keys
    ensures Tracks(s, crashy, r.x.q.g, r.Fleet())
  {
    assert r.running == p.running - {e} && r.seen == p.seen;
    Crashes.FleetStep(s, crashy, p.Fleet(), Crashes.Finish(e), r.Fleet());
  }

  lemma ReclaimPossible(s: Settings, crashy: seq<EntryId>, p: Floor, a: Action)
    requires a.DoReclaim? && IsClaimList(s, p.x.q.g, a.now, a.count, a.ids, a.gone) && Behaves(s, crashy, p, a)
    ensures Crashes.Possible(s, crashy, p.Fleet(), Crashes.Reclaim(a.w, a.ids, a.now))
  {
  }

  lemma ReclaimedPel(s: Settings, crashy: seq<EntryId>, p: Floor, a: Action, r: Floor)
    requires GroupOk(p.x.q.g) && a.DoReclaim? && Moves(s, crashy, p, Calls(a), r)
    ensures Crashes.Possible(s, crashy, p.Fleet(), Crashes.Reclaim(a.w, a.ids, a.now))
    ensures var pass := Crashes.Claims(s, p.Fleet(), a.w, a.ids, a.now);
            r.x.q.g.pel == pass.pel && r.running == p.running + map e | e in pass.kept :: a.w
  {
    ReclaimPossible(s, crashy, p, a);
    assert a.gone == {} && p.x.q.g.pel - a.gone == p.x.q.g.pel;
    assert Crashes.Claims(s, p.Fleet(), a.w, a.ids, a.now) == ReclaimPass(s, p.x.q.g, a.w, a.ids, a.gone, a.slots, a.now);
  }

  lemma ReclaimHappens(s: Settings, crashy: seq<EntryId>, p: Floor, a: Action, r: Floor)
    requires GroupOk(p.x.q.g) && Crashes.ShapeOk(p.Fleet())
    requires a.DoReclaim? && Moves(s, crashy, p, Calls(a), r)
    ensures Crashes.Happens(s, crashy, p.Fleet(), Crashes.Reclaim(a.w, a.ids, a.now), r.Fleet())
  {
    ReclaimedPel(s, crashy, p, a, r);
    SameSeen(s, crashy, p.Fleet(), a.w, a.ids, a.now, r.running);
  }

  lemma SameSeen(s: Settings, crashy: seq<EntryId>, f: Crashes.Fleet, w: Worker, ids: seq<EntryId>, now: int, running: map<EntryId, Worker>)
    requires Crashes.ShapeOk(f) && Crashes.Possible(s, crashy, f, Crashes.Reclaim(w, ids, now))
    requires running == f.running + map e | e in Crashes.Claims(s, f, w, ids, now).kept :: w
    ensures f.seen + Crashes.Claims(s, f, w, ids, now).pel.Keys == f.seen
  {
    Crashes.ReclaimFacts(s, crashy, f, Crashes.Reclaim(w, ids, now), Crashes.Fleet(Crashes.Claims(s, f, w, ids, now).pel, f.seen, running));
  }

  lemma ReclaimKeeps(s: Settings, crashy: seq<EntryId>, p: Floor, a: Action, r: Floor)
    requires Bounded(s, crashy) && GroupOk(p.x.q.g) && Tracks(s, crashy, p.x.q.g, p.Fleet())
    requires a.DoReclaim? && Moves(s, crashy, p, Calls(a), r)
    ensures Tracks(s, crashy, r.x.q.g, r.Fleet())
  {
    ReclaimHappens(s, crashy, p, a, r);
    var event := Crashes.Reclaim(a.w, a.ids, a.now);
    Crashes.FleetStep(s, crashy, p.Fleet(), event, r.Fleet());
    Crashes.ReclaimFacts(s, crashy, p.Fleet(), event, r.Fleet());
    assert r.x.q.g.delivered == p.x.q.g.delivered;
  }

  lemma HeartbeatKeeps(s: Settings, crashy: seq<EntryId>, p: Floor, a: Action, r: Floor)
    requires Bounded(s, crashy) && Tracks(s, crashy, p.x.q.g, p.Fleet())
    requires a.DoHeartbeat? && Moves(s, crashy, p, Calls(a), r)
    ensures Tracks(s, crashy, r.x.q.g, r.Fleet())
  {
    if Owns(p.x.q.g, a.w, a.e) {
      assert r.running == p.running && r.seen == p.seen;
      Crashes.FleetStep(s, crashy, p.Fleet(), Crashes.Beat(a.e, a.now), r.Fleet());
    } else {
      SamePelKeeps(s, crashy, p, r);
    }
  }

  lemma FetchKeeps(s: Settings, crashy: seq<EntryId>, p: Floor, a: Action, r: Floor)
    requires Bounded(s, crashy) && Tracks(s, crashy, p.x.q.g, p.Fleet())
    requires a.DoFetch? && Moves(s, crashy, p, Calls(a), r)
    ensures Tracks(s, crashy, r.x.q.g, r.Fleet())
  {
    FetchedKeep(s, crashy, Register(p.x.q.g, a.w, a.now), a.w, a.count, a.now, p.Fleet());
  }

  /** A retry or DLQ move by somebody else than the owner leaves the PEL alone. */
  lemma RefusedKeepsPel(s: Settings, x: System, a: Action, y: System)
    requires Next(s, x, a, y) && (a.DoRetry? || a.DoDead?) && !Owns(x.q.g, a.w, a.e)
    ensures y.q.g.pel == x.q.g.pel
  {
  }

  lemma OtherKeeps(s: Settings, crashy: seq<EntryId>, p: Floor, a: Action, r: Floor)
    requires Bounded(s, crashy) && Tracks(s, crashy, p.x.q.g, p.Fleet())
    requires !a.DoReclaim? && !a.DoHeartbeat? && !a.DoFetch? && Moves(s, crashy, p, Calls(a), r)
    ensures Tracks(s, crashy, r.x.q.g, r.Fleet())
  {
    PelFrame(s, p.x, a, r.x);
    if r.x.q.g.pel == p.x.q.g.pel {
      SamePelKeeps(s, crashy, p, r);
    } else {
      var e :| CallsAbout(a, e) && r.x.q.g.pel == p.x.q.g.pel - {e};
      assert e in p.x.q.g.pel;
      if !a.DoCommit? && !Owns(p.x.q.g, a.w, e) {
        RefusedKeepsPel(s, p.x, a, r.x);
      }
      ExitKeeps(s, crashy, p, e, r);
    }
  }

  lemma DiesKeeps(s: Settings, crashy: seq<EntryId>, p: Floor, m: Move, r: Floor)
    requires Bounded(s, crashy) && Tracks(s, crashy, p.x.q.g, p.Fleet())
    requires m.Dies? && Moves(s, crashy, p, m, r)
    ensures Tracks(s, crashy, r.x.q.g, r.Fleet())
  {
    Crashes.FleetStep(s, crashy, p.Fleet(), Crashes.Crash(m.w, m.c), r.Fleet());
  }

  lemma MoveTracks(s: Settings, crashy: seq<EntryId>, p: Floor, m: Move, r: Floor)
    requires Bounded(s, crashy) && GroupOk(p.x.q.g) && Tracks(s, crashy, p.x.q.g, p.Fleet()) && Moves(s, crashy, p, m, r)
    ensures Tracks(s, crashy, r.x.q.g, r.Fleet())
  {
    match m
    case Dies(_, _) => DiesKeeps(s, crashy, p, m, r);
    case Calls(a) =>
      if a.DoReclaim? {
        ReclaimKeeps(s, crashy, p, a, r);
      } else if a.DoHeartbeat? {
        HeartbeatKeeps(s, crashy, p, a, r);
      } else if a.DoFetch? {
        FetchKeeps(s, crashy, p, a, r);
      } else {
        OtherKeeps(s, crashy, p, a, r);
      }
  }

  lemma InnocentInHand(s: Settings, crashy: seq<EntryId>, p: Floor, e: EntryId)
    requires Bounded(s, crashy) && Tracks(s, crashy, p.x.q.g, p.Fleet())
    requires e in p.x.q.g.pel && e !in crashy
    ensures p.x.q.g.pel[e].deliveries <= Crashes.MostDeliveries(s, |crashy|) <= s.maxDeliveries
  {
    assert Crashes.FleetInv(s, crashy, p.Fleet());
    assert Crashes.WithinPotential(s, crashy, p.Fleet(), e);
  }

  lemma DeadNext(s: Settings, crashy: seq<EntryId>, p: Floor, a: Action, y: System)
    requires Bounded(s, crashy) && Tracks(s, crashy, p.x.q.g, p.Fleet())
    requires a.DoDead? && Next(s, p.x, a, y) && Behaves(s, crashy, p, a) && OnlyCrashyGivenUp(s, crashy, p.x.q.v.dlq)
    ensures OnlyCrashyGivenUp(s, crashy, y.q.v.dlq)
  {
    match DeadOutcome(p.x.q, a.w, a.e, p.x.written[a.e].id) {
      case LeaseLost => case TerminalState => case EntryMissing =>
      case Ok =>
        if a.e !in crashy {
          InnocentInHand(s, crashy, p, a.e);
        }
    }
  }

  lemma DlqNext(s: Settings, crashy: seq<EntryId>, p: Floor, a: Action, y: System)
    requires Bounded(s, crashy) && Tracks(s, crashy, p.x.q.g, p.Fleet())
    requires Next(s, p.x, a, y) && Behaves(s, crashy, p, a) && OnlyCrashyGivenUp(s, crashy, p.x.q.v.dlq)
    ensures OnlyCrashyGivenUp(s, crashy, y.q.v.dlq)
  {
    match a
    case DoCommit(_, e, _, _) => if p.x.q.v.HasSucceeded(p.x.written[e].id) {} else {}
    case DoDead(_, _, _, _, _, _, _) => DeadNext(s, crashy, p, a, y);
    case DoRequeue(j) => if RequeueOutcomeOf(p.x.q.v, j).Requeued? {} else {}
    case _ => VerdictsFrame(s, p.x, a, y);
  }

  lemma MoveKeeps(s: Settings, crashy: seq<EntryId>, p: Floor, m: Move, r: Floor)
    requires Bounded(s, crashy) && FloorInv(s, crashy, p) && Moves(s, crashy, p, m, r)
    ensures FloorInv(s, crashy, r)
  {
    assert Reachability.SystemInv(s, p.x);
    MoveTracks(s, crashy, p, m, r);
    if m.Calls? {
      DlqNext(s, crashy, p, m.a, r.x);
      Reachability.StepKeeps(s, p.x, m.a, r.x);
    }
  }

  ghost function FloorInvOf(s: Settings, crashy: seq<EntryId>): Floor -> bool
    requires Bounded(s, crashy)
  {
    p => FloorInv(s, crashy, p)
  }

  lemma OpeningTracks(s: Settings, crashy: seq<EntryId>, p: Floor)
    requires Bounded(s, crashy) && IsOpening(p)
    ensures Tracks(s, crashy, p.x.q.g, p.Fleet()) && OnlyCrashyGivenUp(s, crashy, p.x.q.v.dlq)
  {
  }

  lemma OpeningInv(s: Settings, crashy: seq<EntryId>, p: Floor)
    requires Bounded(s, crashy) && IsOpening(p)
    ensures FloorInv(s, crashy, p)
  {
    Reachability.InitInvOf(s);
    assert Reachability.InvOf(s)(p.x);
    OpeningTracks(s, crashy, p);
  }

  lemma AlwaysFloorInv(s: Settings, crashy: seq<EntryId>, floors: seq<Floor>, moves: seq<Move>, k: nat)
    requires Bounded(s, crashy) && IsFloorRun(s, crashy, floors, moves) && k < |floors|
    ensures FloorInv(s, crashy, floors[k])
  {
    forall p | IsOpening(p) ensures FloorInvOf(s, crashy)(p) {
      OpeningInv(s, crashy, p);
    }
    forall p, m, r | FloorInvOf(s, crashy)(p) && MovesOf(s, crashy)(p, m, r) ensures FloorInvOf(s, crashy)(r) {
      MoveKeeps(s, crashy, p, m, r);
    }
    Behaviors.Always((p: Floor) => IsOpening(p), MovesOf(s, crashy), FloorInvOf(s, crashy), floors, moves, k);
    assert FloorInvOf(s, crashy)(floors[k]);
  }

  /** In every run of the queue itself with such workers, an entry that is not crashy is delivered at most
      `MostDeliveries` times; and whatever entry of the DLQ was not, was not put there for its deliveries. */
  lemma InnocentsAreRun(s: Settings, crashy: seq<EntryId>, floors: seq<Floor>, moves: seq<Move>, k: nat, e: EntryId)
    requires Bounded(s, crashy) && IsFloorRun(s, crashy, floors, moves) && k < |floors| && e !in crashy
    ensures var q := floors[k].x.q;
            && (e in q.g.pel ==> q.g.pel[e].deliveries <= Crashes.MostDeliveries(s, |crashy|) <= s.maxDeliveries)
            && forall d :: d in q.v.dlq && q.v.dlq[d].source == e ==>
                 q.v.dlq[d].deliveries <= s.maxDeliveries && !q.v.dlq[d].reason.MaxDeliveries?
  {
    AlwaysFloorInv(s, crashy, floors, moves, k);
    if e in floors[k].x.q.g.pel {
      InnocentInHand(s, crashy, floors[k], e);
    }
  }
}
