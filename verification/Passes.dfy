/** What one reclaim pass does to each entry, and how many suspects it hands out. */
module Passes {
  import opened QueueTypes
  import opened Scripts

  /** What the pass does to one entry it claimed: kept and counted, or put back with its old
      count, still expired, but owned by the caller either way. */
  predicate ClaimedOrPutBack(s: Settings, before: Lease, after: Lease, kept: bool, w: Worker, now: int) {
    after == if kept then Lease(w, now, before.deliveries + 1) else Lease(w, now - s.lease, before.deliveries)
  }

  lemma {:induction false} ClaimAllEffect(s: Settings, p: Pass, w: Worker, ids: seq<EntryId>, now: int, e: EntryId)
    requires forall i :: i in ids ==> i in p.pel
    requires forall i, k :: 0 <= i < k < |ids| ==> ids[i] < ids[k]
    requires e in p.pel && e !in p.kept
    ensures var r := ClaimAll(s, p, w, ids, now);
            if e in ids then ClaimedOrPutBack(s, p.pel[e], r.pel[e], e in r.kept, w, now)
            else r.pel[e] == p.pel[e] && e !in r.kept
    decreases |ids|
  {
    if ids != [] {
      assert ids[0] in ids;
      var p1 := ClaimOne(s, p, w, ids[0], now);
      if e == ids[0] {
        assert e !in ids[1..];
        if PutBack(s, p, e) {
          ClaimAllEffect(s, p1, w, ids[1..], now, e);
        } else {
          ClaimAllRest(s, p1, w, ids[1..], now, e);
        }
      } else {
        if PutBack(s, p, ids[0]) {} else {}
        ClaimAllEffect(s, p1, w, ids[1..], now, e);
      }
    }
  }

  /** A put-back leaves the lease exactly as it was if and only if the caller already owned the entry
      and its idle time was exactly the lease: the script hands the entry to its caller and sets the
      idle time, whatever they were. The delivery count is restored, and the lease still run out. */
  lemma PutBackIsExactIff(s: Settings, p: Pass, w: Worker, ids: seq<EntryId>, now: int, e: EntryId)
    requires forall i :: i in ids ==> i in p.pel
    requires forall i, k :: 0 <= i < k < |ids| ==> ids[i] < ids[k]
    requires e in ids && e !in p.kept && e !in ClaimAll(s, p, w, ids, now).kept
    ensures var before, after := p.pel[e], ClaimAll(s, p, w, ids, now).pel[e];
            && (after == before <==> before.owner == w && now - before.since == s.lease)
            && after.deliveries == before.deliveries && now - after.since >= s.lease
  {
    ClaimAllEffect(s, p, w, ids, now, e);
  }

  /** For instance: an entry about to become a suspect, which worker 0 held, is worker 1's after
      worker 1 claimed it without a slot for it. */
  lemma PutBackChangesTheOwner(s: Settings, now: int)
    requires s.Valid()
    ensures var before := Lease(0, now - s.lease, s.SuspectThreshold() - 1);
            var r := ClaimAll(s, Pass(map[0 := before], 0, []), 1, [0], now);
            r.kept == [] && r.pel[0] == before.(owner := 1)
  {
    var p := Pass(map[0 := Lease(0, now - s.lease, s.SuspectThreshold() - 1)], 0, []);
    assert [0][0] == 0 && [0][1..] == [];
    assert ClaimAll(s, p, 1, [0], now) == ClaimOne(s, p, 1, 0, now);
  }

  /** Entries kept earlier in the pass are not touched again. */
  lemma {:induction false} ClaimAllRest(s: Settings, p: Pass, w: Worker, ids: seq<EntryId>, now: int, e: EntryId)
    requires forall i :: i in ids ==> i in p.pel
    requires e in p.pel && e !in ids && e in p.kept
    ensures ClaimAll(s, p, w, ids, now).pel[e] == p.pel[e] && e in ClaimAll(s, p, w, ids, now).kept
    decreases |ids|
  {
    if ids != [] {
      assert ids[0] in ids;
      var p1 := ClaimOne(s, p, w, ids[0], now);
      if PutBack(s, p, ids[0]) {} else {}
      ClaimAllRest(s, p1, w, ids[1..], now, e);
    }
  }

  /** `Claimed.is_suspect` over what a pass kept. */
  function Suspects(s: Settings, pel: map<EntryId, Lease>, kept: seq<EntryId>): set<EntryId>
    requires forall e :: e in kept ==> e in pel
  {
    set e | e in kept && s.IsSuspect(pel[e].deliveries)
  }

  /** What remains of a pass is decided about entries it has not decided yet. */
  ghost predicate Undecided(p: Pass, ids: seq<EntryId>) {
    && (forall e :: e in ids ==> e in p.pel && e !in p.kept)
    && (forall e :: e in p.kept ==> e in p.pel)
    && (forall i, k :: 0 <= i < k < |ids| ==> ids[i] != ids[k])
  }

  /** Every suspect that a pass keeps uses up one of its slots. */
  lemma {:induction false} SuspectsUseSlots(s: Settings, p: Pass, w: Worker, ids: seq<EntryId>, now: int)
    requires Undecided(p, ids)
    ensures var r := ClaimAll(s, p, w, ids, now);
            && (forall e :: e in r.kept ==> e in r.pel)
            && |Suspects(s, r.pel, r.kept)| + r.slots == |Suspects(s, p.pel, p.kept)| + p.slots
            && |p.kept| <= |r.kept| <= |p.kept| + |ids|
    decreases |ids|
  {
    if ids != [] {
      var e := ids[0];
      assert e in ids;
      var p1 := ClaimOne(s, p, w, e, now);
      if PutBack(s, p, e) {
        assert Suspects(s, p1.pel, p1.kept) == Suspects(s, p.pel, p.kept);
      } else if s.IsSuspect(p.pel[e].deliveries + 1) {
        assert Suspects(s, p1.pel, p1.kept) == Suspects(s, p.pel, p.kept) + {e};
      } else {
        assert Suspects(s, p1.pel, p1.kept) == Suspects(s, p.pel, p.kept);
      }
      SuspectsUseSlots(s, p1, w, ids[1..], now);
    }
  }

  // ---------------------------------------------------------------- who is handed out

  /** The suspects that a pass over `ids` would hand out before `e`, if it had the slots. */
  function SuspectsBefore(s: Settings, pel: map<EntryId, Lease>, ids: seq<EntryId>, e: EntryId): set<EntryId>
    requires forall i :: i in ids ==> i in pel
  {
    set d | d in ids && d < e && s.IsSuspect(pel[d].deliveries + 1)
  }

  /** An entry is handed out unless this would be a suspect's delivery and the suspects before it, in id order,
      have used up the slots. */
  predicate HandsOut(s: Settings, pel: map<EntryId, Lease>, ids: seq<EntryId>, slots: nat, e: EntryId)
    requires forall i :: i in ids ==> i in pel
  {
    e in ids && (s.IsSuspect(pel[e].deliveries + 1) ==> |SuspectsBefore(s, pel, ids, e)| < slots)
  }

  ghost predicate Rising(ids: seq<EntryId>) {
    forall i, k :: 0 <= i < k < |ids| ==> ids[i] < ids[k]
  }

  lemma SuspectsAfterFirst(s: Settings, pel: map<EntryId, Lease>, pel1: map<EntryId, Lease>, ids: seq<EntryId>, e: EntryId)
    requires ids != [] && Rising(ids) && e in ids[1..] && (forall i :: i in ids ==> i in pel)
    requires forall i :: i in ids[1..] ==> i in pel1 && pel1[i] == pel[i]
    ensures ids[0] in pel
    ensures |SuspectsBefore(s, pel, ids, e)| ==
            |SuspectsBefore(s, pel1, ids[1..], e)| + if s.IsSuspect(pel[ids[0]].deliveries + 1) then 1 else 0
  {
    RestIsLater(ids);
    var first, suspect := ids[0], s.IsSuspect(pel[ids[0]].deliveries + 1);
    var all, rest := SuspectsBefore(s, pel, ids, e), SuspectsBefore(s, pel1, ids[1..], e);
    forall d ensures d in all <==> d in rest || (suspect && d == first) {
      if d in ids[1..] {
        assert pel1[d] == pel[d] && first < d;
      }
    }
    WithFirst(all, rest, first, suspect);
  }

  lemma WithFirst(all: set<EntryId>, rest: set<EntryId>, first: EntryId, more: bool)
    requires first !in rest && forall d :: d in all <==> d in rest || (more && d == first)
    ensures |all| == |rest| + if more then 1 else 0
  {
    assert all == if more then rest + {first} else rest;
  }

  /** The first entry of a pass, and what is left of the question for the others. */
  lemma FirstDecided(s: Settings, p: Pass, w: Worker, ids: seq<EntryId>, now: int, e: EntryId)
    requires ids != [] && Rising(ids) && (forall i :: i in ids ==> i in p.pel) && e in ids[1..]
    ensures ids[0] in p.pel && forall i :: i in ids[1..] ==> i in p.pel
    ensures var p1 := ClaimOne(s, p, w, ids[0], now);
            && (forall i :: i in ids[1..] ==> i in p1.pel && p1.pel[i] == p.pel[i])
            && (HandsOut(s, p1.pel, ids[1..], p1.slots, e) <==> HandsOut(s, p.pel, ids, p.slots, e))
  {
    RestIsLater(ids);
    SuspectsAfterFirst(s, p.pel, ClaimOne(s, p, w, ids[0], now).pel, ids, e);
  }

  lemma RestIsLater(ids: seq<EntryId>)
    requires ids != [] && Rising(ids)
    ensures ids[0] in ids && forall i :: i in ids[1..] ==> i in ids && ids[0] < i
    ensures forall i :: i in ids <==> i == ids[0] || i in ids[1..]
  {
  }

  /** The pass hands out exactly those, and in id order. */
  lemma {:induction false} KeptIff(s: Settings, p: Pass, w: Worker, ids: seq<EntryId>, now: int, e: EntryId)
    requires Rising(ids) && Undecided(p, ids) && e !in p.kept
    ensures e in ClaimAll(s, p, w, ids, now).kept <==> HandsOut(s, p.pel, ids, p.slots, e)
    decreases |ids|
  {
    if ids != [] {
      var p1 := ClaimOne(s, p, w, ids[0], now);
      assert ids[0] in ids;
      if e == ids[0] {
        assert SuspectsBefore(s, p.pel, ids, e) == {};
        if PutBack(s, p, e) {
          KeptIff(s, p1, w, ids[1..], now, e);
        } else {
          ClaimAllRest(s, p1, w, ids[1..], now, e);
        }
      } else {
        if e in ids {
          FirstDecided(s, p, w, ids, now, e);
        }
        KeptIff(s, p1, w, ids[1..], now, e);
      }
    }
  }

  lemma {:induction false} KeptInOrder(s: Settings, p: Pass, w: Worker, ids: seq<EntryId>, now: int)
    requires Rising(ids) && (forall i :: i in ids ==> i in p.pel) && Rising(p.kept)
    requires forall d, e :: d in p.kept && e in ids ==> d < e
    ensures Rising(ClaimAll(s, p, w, ids, now).kept)
    decreases |ids|
  {
    if ids != [] {
      RestIsLater(ids);
      var more := p.kept + [ids[0]];
      assert forall i :: 0 <= i < |p.kept| ==> more[i] == p.kept[i] && p.kept[i] in p.kept;
      KeptInOrder(s, ClaimOne(s, p, w, ids[0], now), w, ids[1..], now);
    }
  }

  /** A suspect is left out only when the slots are used up. */
  lemma LeftOutWhenUsedUp(s: Settings, p: Pass, w: Worker, ids: seq<EntryId>, now: int, e: EntryId)
    requires Rising(ids) && Undecided(p, ids) && p.kept == [] && e in ids && e !in ClaimAll(s, p, w, ids, now).kept
    ensures var r := ClaimAll(s, p, w, ids, now); r.slots == 0 && s.IsSuspect(p.pel[e].deliveries + 1)
    ensures var r := ClaimAll(s, p, w, ids, now); (forall k :: k in r.kept ==> k in r.pel) && |Suspects(s, r.pel, r.kept)| == p.slots
  {
    KeptIff(s, p, w, ids, now, e);
    SuspectsUseSlots(s, p, w, ids, now);
    UsedUp(s, p, w, ids, now, e);
  }

  lemma {:induction false} UsedUp(s: Settings, p: Pass, w: Worker, ids: seq<EntryId>, now: int, e: EntryId)
    requires Rising(ids) && Undecided(p, ids) && e in ids && e !in p.kept && e !in ClaimAll(s, p, w, ids, now).kept
    ensures ClaimAll(s, p, w, ids, now).slots == 0
    decreases |ids|
  {
    var p1 := ClaimOne(s, p, w, ids[0], now);
    assert ids[0] in ids;
    if e == ids[0] {
      if !PutBack(s, p, e) {
        ClaimAllRest(s, p1, w, ids[1..], now, e);
      } else {
        SlotsOnlyShrink(s, p1, w, ids[1..], now);
      }
    } else {
      UsedUp(s, p1, w, ids[1..], now, e);
    }
  }

  lemma {:induction false} SlotsOnlyShrink(s: Settings, p: Pass, w: Worker, ids: seq<EntryId>, now: int)
    requires forall i :: i in ids ==> i in p.pel
    ensures ClaimAll(s, p, w, ids, now).slots <= p.slots
    decreases |ids|
  {
    if ids != [] {
      assert ids[0] in ids;
      SlotsOnlyShrink(s, ClaimOne(s, p, w, ids[0], now), w, ids[1..], now);
    }
  }
}
