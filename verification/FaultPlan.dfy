/** The chaos run's fault schedule (`chaos/faults.py`), for every outcome of the random draws. */
module FaultPlan {
  import opened Steps
  import opened Sets

  datatype Kind = Kill | Pause | ResetPeer | Timeout | Latency | Partition

  /** Times in seconds, rounded to the millisecond. */
  datatype Fault = Fault(at: real, kind: Kind, worker: nat, duration: real, latencyMs: nat)

  const OPENING_ROUNDS := 4
  const SETTLE := 2.0

  const KINDS: seq<Kind> := [Kill, Pause, ResetPeer, Timeout, Latency, Partition]

  /** Every kind `OPENING_ROUNDS` times. */
  const OPENING: seq<Kind> := KINDS + KINDS + KINDS + KINDS

  lemma OpeningHasAll(k: Kind)
    ensures multiset(OPENING)[k] == OPENING_ROUNDS
  {
    assert multiset(OPENING) == multiset(KINDS) + multiset(KINDS) + multiset(KINDS) + multiset(KINDS);
    match k { case Kill => case Pause => case ResetPeer => case Timeout => case Latency => case Partition => }
  }

  predicate InRange(x: real, lo: real, hi: real) {
    lo <= x <= hi
  }

  /** `_duration`'s ranges. */
  predicate DurationFits(kind: Kind, lease: real, duration: real, latencyMs: nat) {
    match kind
    case Kill => InRange(duration, 0.5, 3.0) && latencyMs == 0
    case Pause => InRange(duration, 1.5 * lease, 3.0 * lease) && latencyMs == 0
    case Latency => InRange(duration, 2.0, 5.0) && 50 <= latencyMs <= 250
    case _ => InRange(duration, 1.0, 4.0) && latencyMs == 0
  }

  predicate Rounded(x: real, y: real) {
    -0.0005 <= x - y <= 0.0005
  }

  /** Half of the workers, rounded down, but at least one. */
  function MaxActive(workers: nat): (most: nat)
    ensures 1 <= most && (most == 1 || 2 * most <= workers) && workers <= 2 * most + 1
  {
    if workers / 2 < 1 then 1 else workers / 2
  }

  // ---------------------------------------------------------------- what a plan must be

  /** The workers under a fault at an instant. */
  function Active(faults: seq<Fault>, t: real): set<nat> {
    set f | f in faults && f.at <= t < f.at + f.duration :: f.worker
  }

  ghost predicate NoOverlap(faults: seq<Fault>) {
    forall i, k :: 0 <= i < k < |faults| && faults[i].worker == faults[k].worker ==>
      faults[i].at + faults[i].duration + SETTLE <= faults[k].at + 0.0015
  }

  /** A fault as drawn, before rounding, and the workers that were busy when it was placed. */
  datatype Draw = Draw(start: real, duration: real, busy: set<nat>)

  ghost predicate Placed(workers: nat, lease: real, f: Fault, d: Draw) {
    && Rounded(f.at, d.start) && Rounded(f.duration, d.duration)
    && DurationFits(f.kind, lease, d.duration, f.latencyMs)
    && 1 <= f.worker <= workers && f.worker !in d.busy && |d.busy| < MaxActive(workers)
  }

  /** A worker counts as busy until its fault is over and settled. */
  ghost predicate Respects(faults: seq<Fault>, draws: seq<Draw>) {
    |faults| == |draws| && forall i, k :: 0 <= i < k < |draws| ==>
      draws[i].start <= draws[k].start && (draws[k].start < draws[i].start + draws[i].duration + SETTLE ==> faults[i].worker in draws[k].busy)
  }

  ghost predicate AllPlaced(workers: nat, lease: real, faults: seq<Fault>, draws: seq<Draw>) {
    |faults| == |draws| && forall i :: 0 <= i < |faults| ==> Placed(workers, lease, faults[i], draws[i])
  }

  lemma PlansDoNotOverlap(workers: nat, lease: real, faults: seq<Fault>, draws: seq<Draw>)
    requires AllPlaced(workers, lease, faults, draws) && Respects(faults, draws)
    ensures NoOverlap(faults)
  {
    forall i, k | 0 <= i < k < |faults| && faults[i].worker == faults[k].worker
      ensures faults[i].at + faults[i].duration + SETTLE <= faults[k].at + 0.0015
    {
      assert Placed(workers, lease, faults[i], draws[i]) && Placed(workers, lease, faults[k], draws[k]);
    }
  }

  /** The latest of the faults active at an instant was placed while all the others' workers were
      busy, and there were fewer than `MaxActive` of those. */
  lemma FewAtOnce(workers: nat, lease: real, faults: seq<Fault>, draws: seq<Draw>, t: real)
    requires AllPlaced(workers, lease, faults, draws) && Respects(faults, draws)
    ensures |Active(faults, t)| <= MaxActive(workers)
    ensures |Active(faults, t)| <= 1 || 2 * |Active(faults, t)| <= workers
  {
    if Active(faults, t) != {} {
      var k := LatestActive(faults, t);
      assert Placed(workers, lease, faults[k], draws[k]);
      forall x | x in Active(faults, t) ensures x in draws[k].busy + {faults[k].worker} {
        var g :| g in faults && g.at <= t < g.at + g.duration && g.worker == x;
        var i :| 0 <= i < |faults| && faults[i] == g;
        assert Placed(workers, lease, faults[i], draws[i]);
      }
      SubsetSize(Active(faults, t), draws[k].busy + {faults[k].worker});
    }
  }

  lemma LatestActive(faults: seq<Fault>, t: real) returns (k: nat)
    requires exists f :: f in faults && f.at <= t < f.at + f.duration
    ensures k < |faults| && faults[k].at <= t < faults[k].at + faults[k].duration
    ensures forall i :: k < i < |faults| ==> !(faults[i].at <= t < faults[i].at + faults[i].duration)
  {
    k := |faults| - 1;
    while !(faults[k].at <= t < faults[k].at + faults[k].duration)
      invariant k < |faults|
      invariant forall i :: k < i < |faults| ==> !(faults[i].at <= t < faults[i].at + faults[i].duration)
      invariant exists i :: 0 <= i <= k && faults[i].at <= t < faults[i].at + faults[i].duration
      decreases k
    {
      k := k - 1;
    }
  }

  // ---------------------------------------------------------------- the planner

  /** Each worker is busy at least until its last fault is over and settled, and nobody is busy
      past `horizon`. */
  ghost predicate BusyOk(workers: nat, busy: seq<real>, faults: seq<Fault>, draws: seq<Draw>, t: real, horizon: real) {
    && |busy| == workers + 1 && |faults| == |draws|
    && (forall i :: 0 <= i < |draws| ==>
          1 <= faults[i].worker <= workers && draws[i].start <= t
          && draws[i].start + draws[i].duration + SETTLE <= busy[faults[i].worker])
    && forall w :: 0 <= w <= workers ==> busy[w] <= horizon
  }

  function Workers(n: nat): (all: set<nat>)
    ensures forall w :: w in all <==> 1 <= w <= n
    ensures |all| == n
  {
    if n == 0 then {} else Workers(n - 1) + {n}
  }

  /** A worker that is not idle since the start is busy with some fault's time and settling. */
  ghost predicate BusyExact(workers: nat, busy: seq<real>, faults: seq<Fault>, draws: seq<Draw>) {
    && |busy| == workers + 1 && |faults| == |draws|
    && forall w :: 1 <= w <= workers && busy[w] > 0.0 ==> BusyWith(busy[w], faults, draws, w)
  }

  ghost predicate BusyWith(until: real, faults: seq<Fault>, draws: seq<Draw>, w: nat)
    requires |faults| == |draws|
  {
    exists i :: 0 <= i < |draws| && faults[i].worker == w && until == draws[i].start + draws[i].duration + SETTLE
  }

  /** The workers that the plan keeps busy at an instant. */
  function Occupied(faults: seq<Fault>, draws: seq<Draw>, t: real): set<nat>
    requires |faults| == |draws|
  {
    set i | 0 <= i < |draws| && draws[i].start <= t < draws[i].start + draws[i].duration + SETTLE :: faults[i].worker
  }

  /** At a slot either a fault starts, or so many workers are occupied that none may be picked. */
  ghost predicate SlotUsed(workers: nat, faults: seq<Fault>, draws: seq<Draw>, t: real) {
    && |faults| == |draws|
    && ((exists i :: 0 <= i < |draws| && draws[i].start == t) || MaxActive(workers) <= |Occupied(faults, draws, t)|)
  }

  /** The slots the plan went through: from second 2.0, a gap apart, until `end`; every fault starts at
      one of them, and each was used. */
  ghost predicate SlotsOk(workers: nat, gapLo: real, gapHi: real, faults: seq<Fault>, draws: seq<Draw>, slots: seq<real>, end: real) {
    && |faults| == |draws|
    && (if slots == [] then end == 2.0 else slots[0] == 2.0 && InRange(end - slots[|slots| - 1], gapLo, gapHi))
    && (forall i, k :: 0 <= i && i + 1 == k < |slots| ==> InRange(slots[k] - slots[i], gapLo, gapHi))
    && (forall i :: 0 <= i < |draws| ==> draws[i].start in slots)
    && (forall i :: 0 <= i < |slots| ==> slots[i] < end)
    && forall i {:trigger SlotUsed(workers, faults, draws, slots[i])} :: 0 <= i < |slots| ==> SlotUsed(workers, faults, draws, slots[i])
  }

  lemma SlotStaysUsed(workers: nat, faults: seq<Fault>, draws: seq<Draw>, f: Fault, d: Draw, t: real)
    requires SlotUsed(workers, faults, draws, t) && t < d.start
    ensures SlotUsed(workers, faults + [f], draws + [d], t)
  {
    var fs, ds := faults + [f], draws + [d];
    if i :| 0 <= i < |draws| && draws[i].start == t {
      assert ds[i].start == t;
    } else {
      assert Occupied(faults, draws, t) <= Occupied(fs, ds, t) by {
        forall w | w in Occupied(faults, draws, t) ensures w in Occupied(fs, ds, t) {
          var i :| 0 <= i < |draws| && draws[i].start <= t < draws[i].start + draws[i].duration + SETTLE && faults[i].worker == w;
          assert ds[i] == draws[i] && fs[i] == faults[i];
        }
      }
      SubsetSize(Occupied(faults, draws, t), Occupied(fs, ds, t));
    }
  }

  lemma SlotsNext(workers: nat, gapLo: real, gapHi: real, faults: seq<Fault>, draws: seq<Draw>, slots: seq<real>, end: real,
                  more: seq<Fault>, moreDraws: seq<Draw>, gap: real)
    requires SlotsOk(workers, gapLo, gapHi, faults, draws, slots, end) && InRange(gap, gapLo, gapHi) && 0.0 < gapLo
    requires Grown(faults, draws, more, moreDraws, end) && SlotUsed(workers, more, moreDraws, end)
    ensures SlotsOk(workers, gapLo, gapHi, more, moreDraws, slots + [end], end + gap)
  {
    var all := slots + [end];
    forall i | 0 <= i < |all| ensures SlotUsed(workers, more, moreDraws, all[i]) {
      assert i < |slots| ==> SlotUsed(workers, faults, draws, slots[i]);
      if i < |slots| && draws != moreDraws {
        SlotStaysUsed(workers, faults, draws, more[|faults|], moreDraws[|draws|], slots[i]);
      }
    }
  }

  /** At most one fault was added, and it starts now. */
  ghost predicate Grown(faults: seq<Fault>, draws: seq<Draw>, more: seq<Fault>, moreDraws: seq<Draw>, t: real) {
    || (more == faults && moreDraws == draws)
    || (|more| == |faults| + 1 && |moreDraws| == |draws| + 1 && more == faults + [more[|faults|]] && moreDraws == draws + [moreDraws[|draws|]]
        && moreDraws[|draws|].start == t)
  }

  /** How often each kind has been or will be planned, at least. */
  ghost predicate EnoughOfEach(faults: seq<Fault>, opening: seq<Kind>) {
    forall k :: OPENING_ROUNDS <= Planned(faults, k) + multiset(opening)[k]
  }

  function Planned(faults: seq<Fault>, k: Kind): nat {
    if faults == [] then 0 else Planned(faults[..|faults| - 1], k) + if faults[|faults| - 1].kind == k then 1 else 0
  }

  /** Where the loop stands. */
  ghost predicate Planning(workers: nat, lease: real, busy: seq<real>, faults: seq<Fault>, draws: seq<Draw>, t: real, horizon: real) {
    && BusyOk(workers, busy, faults, draws, t, horizon) && BusyExact(workers, busy, faults, draws)
    && AllPlaced(workers, lease, faults, draws) && Respects(faults, draws)
  }

  lemma RespectsAfter(workers: nat, busy: seq<real>, faults: seq<Fault>, draws: seq<Draw>, t: real, horizon: real, f: Fault, d: Draw)
    requires Respects(faults, draws) && BusyOk(workers, busy, faults, draws, t, horizon)
    requires d.start == t && d.busy == BusyAt(workers, busy, t)
    ensures Respects(faults + [f], draws + [d])
  {
    var fs, ds := faults + [f], draws + [d];
    forall i, k | 0 <= i < k < |ds|
      ensures ds[i].start <= ds[k].start && (ds[k].start < ds[i].start + ds[i].duration + SETTLE ==> fs[i].worker in ds[k].busy)
    {
      assert ds[i] == draws[i] && fs[i] == faults[i];
      if k < |draws| {
        assert ds[k] == draws[k];
      }
    }
  }

  lemma PlacedAfter(workers: nat, lease: real, faults: seq<Fault>, draws: seq<Draw>, f: Fault, d: Draw)
    requires AllPlaced(workers, lease, faults, draws) && Placed(workers, lease, f, d)
    ensures AllPlaced(workers, lease, faults + [f], draws + [d])
  {
    var fs, ds := faults + [f], draws + [d];
    forall i | 0 <= i < |fs| ensures Placed(workers, lease, fs[i], ds[i]) {
      if i < |faults| {
        assert fs[i] == faults[i] && ds[i] == draws[i];
      }
    }
  }

  lemma BusyAfter(workers: nat, busy: seq<real>, faults: seq<Fault>, draws: seq<Draw>, t: real, horizon: real, f: Fault, d: Draw)
    requires BusyOk(workers, busy, faults, draws, t, horizon) && 1 <= f.worker <= workers && busy[f.worker] <= t
    requires d.start == t && 0.0 <= d.duration
    ensures var until := t + d.duration + SETTLE;
            BusyOk(workers, busy[f.worker := until], faults + [f], draws + [d], t, if until < horizon then horizon else until)
  {
    var fs, ds, after := faults + [f], draws + [d], busy[f.worker := t + d.duration + SETTLE];
    forall i | 0 <= i < |ds|
      ensures 1 <= fs[i].worker <= workers && ds[i].start <= t && ds[i].start + ds[i].duration + SETTLE <= after[fs[i].worker]
    {
      if i < |draws| {
        assert ds[i] == draws[i] && fs[i] == faults[i];
      }
    }
  }

  lemma PlaceOne(workers: nat, lease: real, busy: seq<real>, faults: seq<Fault>, draws: seq<Draw>, t: real, horizon: real,
                 f: Fault, d: Draw)
    requires Planning(workers, lease, busy, faults, draws, t, horizon)
    requires Placed(workers, lease, f, d) && d.start == t && d.busy == BusyAt(workers, busy, t)
    requires 0.0 <= d.duration
    ensures var until := t + d.duration + SETTLE;
            Planning(workers, lease, busy[f.worker := until], faults + [f], draws + [d], t, if until < horizon then horizon else until)
  {
    assert f.worker in Workers(workers) - d.busy && busy[f.worker] <= t;
    RespectsAfter(workers, busy, faults, draws, t, horizon, f, d);
    PlacedAfter(workers, lease, faults, draws, f, d);
    BusyAfter(workers, busy, faults, draws, t, horizon, f, d);
    ExactAfter(workers, busy, faults, draws, f, d);
  }

  lemma ExactAfter(workers: nat, busy: seq<real>, faults: seq<Fault>, draws: seq<Draw>, f: Fault, d: Draw)
    requires BusyExact(workers, busy, faults, draws) && 1 <= f.worker <= workers
    ensures BusyExact(workers, busy[f.worker := d.start + d.duration + SETTLE], faults + [f], draws + [d])
  {
    var fs, ds, after := faults + [f], draws + [d], busy[f.worker := d.start + d.duration + SETTLE];
    forall w | 1 <= w <= workers && after[w] > 0.0 ensures BusyWith(after[w], fs, ds, w) {
      if w == f.worker {
        assert fs[|faults|].worker == w && ds[|draws|] == d;
      } else {
        assert BusyWith(busy[w], faults, draws, w);
        var i :| 0 <= i < |draws| && faults[i].worker == w && busy[w] == draws[i].start + draws[i].duration + SETTLE;
        assert fs[i] == faults[i] && ds[i] == draws[i];
      }
    }
  }

  function FreeAt(workers: nat, busy: seq<real>, t: real): set<nat>
    requires |busy| == workers + 1
  {
    set w: nat | 1 <= w <= workers && busy[w] <= t
  }

  function BusyAt(workers: nat, busy: seq<real>, t: real): set<nat>
    requires |busy| == workers + 1
  {
    set w: nat | 1 <= w <= workers && t < busy[w]
  }

  /** `free`: the workers that may be picked; the others are active or settling. */
  lemma FreeAndBusy(workers: nat, busy: seq<real>, t: real, free: set<nat>)
    requires |busy| == workers + 1 && free == FreeAt(workers, busy, t)
    ensures BusyAt(workers, busy, t) == Workers(workers) - free && |BusyAt(workers, busy, t)| == workers - |free|
  {
    assert Workers(workers) == BusyAt(workers, busy, t) + free;
  }

  /** A free worker is chosen and one fault drawn for it; `until` is how long that makes it busy. */
  method Place(workers: nat, lease: real, busy: seq<real>, faults: seq<Fault>, ghost draws: seq<Draw>, t: real, ghost horizon: real,
               kind: Kind, free: set<nat>)
    returns (f: Fault, ghost d: Draw, until: real, ghost later: real)
    requires |busy| == workers + 1 && 0.0 <= lease && Planning(workers, lease, busy, faults, draws, t, horizon)
    requires free == FreeAt(workers, busy, t) && free != {} && workers - |free| < MaxActive(workers)
    ensures f.kind == kind && Rounded(f.at, t) && horizon <= later && d.start == t && 1 <= f.worker <= workers
    ensures Planning(workers, lease, busy[f.worker := until], faults + [f], draws + [d], t, later)
  {
    FreeAndBusy(workers, busy, t, free);
    var w :| w in free;
    f, d, until := DrawFault(workers, lease, kind, w, t, BusyAt(workers, busy, t));
    later := if until < horizon then horizon else until;
    PlaceOne(workers, lease, busy, faults, draws, t, horizon, f, d);
  }

  /** The fault's duration and latency are drawn, and it is written down, rounded. */
  method DrawFault(workers: nat, lease: real, kind: Kind, w: nat, t: real, ghost busy: set<nat>)
    returns (f: Fault, ghost d: Draw, until: real)
    requires 0.0 <= lease && 1 <= w <= workers && w !in busy && |busy| < MaxActive(workers)
    ensures f.kind == kind && f.worker == w && d.start == t && d.busy == busy && 0.0 <= d.duration
    ensures Placed(workers, lease, f, d) && until == t + d.duration + SETTLE
  {
    var duration, latencyMs := DrawDuration(kind, lease);
    var at := Round(t);
    var rounded := Round(duration);
    f := Fault(at, kind, w, rounded, latencyMs);
    d := Draw(t, duration, busy);
    until := t + duration + SETTLE;
  }

  /** `round(x, 3)`, whichever way it breaks ties. */
  method Round(x: real) returns (y: real)
    ensures Rounded(y, x)
  {
    assert Rounded(x, x);
    y :| Rounded(y, x);
  }

  method Uniform(lo: real, hi: real) returns (x: real)
    requires lo <= hi
    ensures InRange(x, lo, hi)
  {
    assert InRange(lo, lo, hi);
    x :| InRange(x, lo, hi);
  }

  method DrawDuration(kind: Kind, lease: real) returns (duration: real, latencyMs: nat)
    requires 0.0 <= lease
    ensures DurationFits(kind, lease, duration, latencyMs) && 0.0 <= duration
  {
    latencyMs := 0;
    match kind {
      case Kill => duration := Uniform(0.5, 3.0);
      case Pause => duration := Uniform(1.5 * lease, 3.0 * lease);
      case Latency =>
        duration := Uniform(2.0, 5.0);
        latencyMs :| 50 <= latencyMs <= 250;
      case _ => duration := Uniform(1.0, 4.0);
    }
  }

  lemma Later(workers: nat, lease: real, busy: seq<real>, faults: seq<Fault>, draws: seq<Draw>, t: real, horizon: real, gap: real)
    requires Planning(workers, lease, busy, faults, draws, t, horizon) && 0.0 <= gap
    ensures Planning(workers, lease, busy, faults, draws, t + gap, horizon)
  {
  }

  lemma OneMorePlanned(faults: seq<Fault>, f: Fault, k: Kind)
    ensures Planned(faults + [f], k) == Planned(faults, k) + if f.kind == k then 1 else 0
  {
    assert (faults + [f])[..|faults|] == faults;
  }

  lemma EnoughAfter(faults: seq<Fault>, f: Fault, opening: seq<Kind>)
    requires EnoughOfEach(faults, opening) && (opening != [] ==> f.kind == opening[0])
    ensures EnoughOfEach(faults + [f], if opening == [] then [] else opening[1..])
  {
    assert opening != [] ==> multiset(opening) == multiset{opening[0]} + multiset(opening[1..]) by {
      assert opening != [] ==> opening == [opening[0]] + opening[1..];
    }
    forall k ensures OPENING_ROUNDS <= Planned(faults + [f], k) + multiset(if opening == [] then [] else opening[1..])[k] {
      OneMorePlanned(faults, f, k);
    }
  }

  /** What the loop is waiting for: all workers free again, or, once every kind had its rounds, the
      end of the span. */
  function Goal(opening: seq<Kind>, span: real, horizon: real): real {
    if opening == [] then span else horizon
  }

  lemma Onward(left: real, gap: real, steps: nat, step: real)
    requires 0.0 < left && Within(left, steps, step) && step <= gap
    ensures 1 <= steps && Within(left - gap, steps - 1, step)
  {
    LessTime(left - step, left - gap, steps - 1, step);
  }

  lemma NobodyFree(workers: nat, lease: real, busy: seq<real>, faults: seq<Fault>, draws: seq<Draw>, t: real, horizon: real, free: set<nat>)
    requires Planning(workers, lease, busy, faults, draws, t, horizon) && 1 <= workers
    requires free == FreeAt(workers, busy, t) && (free == {} || MaxActive(workers) <= workers - |free|)
    ensures t < horizon && (0.0 <= t ==> SlotUsed(workers, faults, draws, t))
  {
    FreeAndBusy(workers, busy, t, free);
    assert |BusyAt(workers, busy, t)| >= MaxActive(workers) > 0;
    var w :| w in BusyAt(workers, busy, t);
    if 0.0 <= t {
      forall x | x in BusyAt(workers, busy, t) ensures x in Occupied(faults, draws, t) {
        assert BusyWith(busy[x], faults, draws, x);
      }
      SubsetSize(BusyAt(workers, busy, t), Occupied(faults, draws, t));
    }
  }

  method Shuffled() returns (opening: seq<Kind>)
    ensures multiset(opening) == multiset(OPENING)
  {
    opening :| multiset(opening) == multiset(OPENING);
  }

  lemma OpeningSuffices(opening: seq<Kind>)
    requires multiset(opening) == multiset(OPENING)
    ensures EnoughOfEach([], opening) && opening != []
  {
    forall k ensures OPENING_ROUNDS <= multiset(opening)[k] {
      OpeningHasAll(k);
    }
    assert multiset(opening)[Kill] > 0;
  }

  lemma PlanIsGood(workers: nat, lease: real, faults: seq<Fault>, draws: seq<Draw>)
    requires AllPlaced(workers, lease, faults, draws) && Respects(faults, draws)
    ensures NoOverlap(faults) && forall t :: |Active(faults, t)| <= MaxActive(workers)
  {
    PlansDoNotOverlap(workers, lease, faults, draws);
    forall t ensures |Active(faults, t)| <= MaxActive(workers) {
      FewAtOnce(workers, lease, faults, draws, t);
    }
  }

  /** One turn of the loop: place a fault if a worker may be picked. If none may, somebody is busy. */
  method Turn(workers: nat, lease: real, busy: array<real>, before: seq<Fault>, ghost was: seq<Draw>, t: real, ghost horizon: real,
              opening: seq<Kind>)
    returns (faults: seq<Fault>, ghost draws: seq<Draw>, ghost later: real, rest: seq<Kind>)
    requires busy.Length == workers + 1 && 1 <= workers && 0.0 <= lease && EnoughOfEach(before, opening)
    requires Planning(workers, lease, busy[..], before, was, t, horizon) && 0.0 <= t
    modifies busy
    ensures Grown(before, was, faults, draws, t) && SlotUsed(workers, faults, draws, t)
    ensures Planning(workers, lease, busy[..], faults, draws, t, later) && EnoughOfEach(faults, rest)
    ensures rest == opening || rest == if opening == [] then [] else opening[1..]
    ensures rest == opening != [] ==> later == horizon && t < horizon
  {
    var kind: Kind := *;
    if opening != [] {
      kind := opening[0];
    }
    var free := FreeAt(workers, busy[..], t);
    if free != {} && workers - |free| < MaxActive(workers) {
      var f;
      ghost var d;
      var until;
      ghost var seen := busy[..];
      f, d, until, later := Place(workers, lease, busy[..], before, was, t, horizon, kind, free);
      busy[f.worker] := until;
      assert busy[..] == seen[f.worker := until];
      EnoughAfter(before, f, opening);
      faults, draws, rest := before + [f], was + [d], if opening == [] then [] else opening[1..];
      assert draws[|was|].start == t;
    } else {
      NobodyFree(workers, lease, busy[..], before, was, t, horizon, free);
      faults, draws, later, rest := before, was, horizon, opening;
    }
  }

  lemma NothingPlanned(workers: nat, lease: real, gapLo: real, gapHi: real, busy: seq<real>)
    requires |busy| == workers + 1 && forall w :: 0 <= w <= workers ==> busy[w] == 0.0
    ensures Planning(workers, lease, busy, [], [], 2.0, 0.0) && SlotsOk(workers, gapLo, gapHi, [], [], [], 2.0)
  {
  }

  /** One slot: a turn, and the gap to the next one. */
  method OneSlot(workers: nat, lease: real, gapLo: real, gapHi: real, busy: array<real>, before: seq<Fault>, ghost was: seq<Draw>,
                 ghost slots: seq<real>, t: real, ghost horizon: real, opening: seq<Kind>)
    returns (faults: seq<Fault>, ghost draws: seq<Draw>, ghost later: real, rest: seq<Kind>, gap: real)
    requires busy.Length == workers + 1 && 1 <= workers && 0.0 <= lease && EnoughOfEach(before, opening)
    requires Planning(workers, lease, busy[..], before, was, t, horizon) && 0.0 <= t && 0.0 < gapLo <= gapHi
    requires SlotsOk(workers, gapLo, gapHi, before, was, slots, t)
    modifies busy
    ensures InRange(gap, gapLo, gapHi) && Planning(workers, lease, busy[..], faults, draws, t + gap, later)
    ensures EnoughOfEach(faults, rest) && SlotsOk(workers, gapLo, gapHi, faults, draws, slots + [t], t + gap)
    ensures rest == opening || rest == if opening == [] then [] else opening[1..]
    ensures rest == opening != [] ==> later == horizon && t < horizon
  {
    faults, draws, later, rest := Turn(workers, lease, busy, before, was, t, horizon, opening);
    gap := Uniform(gapLo, gapHi);
    SlotsNext(workers, gapLo, gapHi, before, was, slots, t, faults, draws, gap);
    Later(workers, lease, busy[..], faults, draws, t, later, gap);
  }

  /** The plan, for every outcome of the draws: it ends; it goes on through slots a gap apart until
      `span` is past, and at each of them a fault starts unless no worker may be picked; no worker has
      two faults at once, nor more than `MaxActive` workers a fault at the same time; and every kind is
      planned at least `OPENING_ROUNDS` times. */
  method Plan(workers: nat, lease: real, span: real, gapLo: real, gapHi: real)
    returns (faults: seq<Fault>, ghost draws: seq<Draw>, ghost slots: seq<real>, end: real)
    requires 1 <= workers && 0.0 <= lease && 0.0 < gapLo <= gapHi
    ensures AllPlaced(workers, lease, faults, draws) && Respects(faults, draws) && NoOverlap(faults)
    ensures forall t :: |Active(faults, t)| <= MaxActive(workers)
    ensures forall k :: OPENING_ROUNDS <= Planned(faults, k)
    ensures span <= end && SlotsOk(workers, gapLo, gapHi, faults, draws, slots, end)
  {
    var opening := Shuffled();
    OpeningSuffices(opening);
    var busy := new real[workers + 1](_ => 0.0);
    faults, draws, slots, end := [], [], [], 2.0;
    NothingPlanned(workers, lease, gapLo, gapHi, busy[..]);
    ghost var horizon := 0.0;
    ghost var steps := StepsUntil(Goal(opening, span, horizon) - end, gapLo);
    while end < span || opening != []
      invariant busy.Length == workers + 1 && Planning(workers, lease, busy[..], faults, draws, end, horizon)
      invariant EnoughOfEach(faults, opening) && 2.0 <= end
      invariant SlotsOk(workers, gapLo, gapHi, faults, draws, slots, end)
      invariant Within(Goal(opening, span, horizon) - end, steps, gapLo)
      decreases |opening|, steps
    {
      ghost var before, at := opening, end;
      var gap;
      faults, draws, horizon, opening, gap := OneSlot(workers, lease, gapLo, gapHi, busy, faults, draws, slots, end, horizon, opening);
      slots, end := slots + [at], end + gap;
      steps := Advance(opening == before, Goal(opening, span, horizon) - at, gap, steps, gapLo);
    }
    PlanIsGood(workers, lease, faults, draws);
  }

  /** The measure after a turn: one less, or fresh if a fault of the opening was placed. */
  lemma Advance(same: bool, left: real, gap: real, steps: nat, step: real) returns (rest: nat)
    requires 0.0 < step <= gap && (same ==> 0.0 < left && Within(left, steps, step))
    ensures Within(left - gap, rest, step) && (same ==> rest == steps - 1)
  {
    if same {
      Onward(left, gap, steps, step);
      rest := steps - 1;
    } else {
      rest := StepsUntil(left - gap, step);
    }
  }

  lemma StepsUntil(time: real, step: real) returns (steps: nat)
    requires 0.0 < step
    ensures Within(time, steps, step)
  {
    if time <= 0.0 {
      steps := 0;
    } else {
      steps := StepsFor(time, step);
    }
  }
}
