/** The reaper (`src/ftq/reaper.py`): what one pass hands out, and what the cursor is for. */
module Reaping {
  import opened QueueTypes
  import opened Scripts
  import opened Passes
  import RedisQueue

  // ---------------------------------------------------------------- the cursor

  /** XAUTOCLAIM's answer from `from`: it walked the PEL in id order up to `next` (to the end when
      `next` is 0, the start-over cursor) and claimed every expired entry on the way. */
  datatype Scan = Scan(g: Group, now: int, count: nat, from: EntryId, ids: seq<EntryId>, gone: set<EntryId>, next: EntryId)
  {
    predicate Passed(e: EntryId) {
      from <= e && (next == 0 || e < next)
    }

    ghost predicate Valid(s: Settings) {
      && IsClaimList(s, g, now, count, ids, gone)
      && (next == 0 || from < next)
      && (forall e :: e in ids ==> Passed(e))
      && (forall e :: e in g.stream && Expired(s, g, e, now) && Passed(e) ==> e in ids)
    }
  }

  /** Scans that take the cursor from the start of the PEL to its end. */
  ghost predicate IsSweep(s: Settings, scans: seq<Scan>) {
    && scans != [] && scans[0].from == 0 && scans[|scans| - 1].next == 0
    && (forall i :: 0 <= i < |scans| ==> scans[i].Valid(s))
    && (forall i, k :: 0 <= i && i + 1 == k < |scans| ==> scans[i].next == scans[k].from != 0)
  }

  /** However the PEL changes between the scans, a sweep claims every entry that stays expired. */
  lemma {:induction false} SweepReachesAll(s: Settings, scans: seq<Scan>, e: EntryId) returns (i: nat)
    requires IsSweep(s, scans)
    requires forall k :: 0 <= k < |scans| ==> e in scans[k].g.stream && Expired(s, scans[k].g, e, scans[k].now)
    ensures i < |scans| && e in scans[i].ids
  {
    i := 0;
    while !scans[i].Passed(e)
      invariant i < |scans| && scans[i].from <= e
      decreases |scans| - i
    {
      i := i + 1;
    }
  }

  // ---------------------------------------------------------------- the object

  class Reaper {
    const s: Settings
    const workerId: Worker
    var cursor: EntryId

    constructor (settings: Settings, w: Worker)
      ensures s == settings && workerId == w && cursor == 0
    {
      s, workerId, cursor := settings, w, 0;
    }

    /** Claims up to `count` expired entries, and moves the cursor on. `scan` is XAUTOCLAIM's answer. The
        reply lists what the pass handed out, all of it, in id order. */
    method Reclaim(store: RedisQueue.Store, count: nat, slots: nat, now: int, scan: Scan)
      returns (claimed: seq<Claimed>, more: bool)
      requires scan.Valid(s) && scan.g == store.g && scan.now == now && scan.count == count && scan.from == cursor
      modifies this`cursor, store
      ensures store.View() == Scripts.Reclaim(s, old(store.View()), workerId, scan.ids, scan.gone, slots, now)
      ensures cursor == scan.next && more == (scan.next != 0)
      ensures |claimed| <= count && ListsHandedOut(s, scan, slots, claimed) && HandedOutIsHeld(s, scan, workerId, slots, store.g)
      ensures forall e :: e in scan.ids && !s.IsSuspect(scan.g.pel[e].deliveries + 1) ==> Lists(claimed, e)
      ensures |SuspectsIn(s, claimed)| <= slots
      ensures (exists e :: e in scan.ids && !Lists(claimed, e)) ==> |SuspectsIn(s, claimed)| == slots
    {
      ghost var was := store.View();
      var kept := store.Reclaim(s, workerId, scan.ids, scan.gone, slots, now);
      cursor, more := scan.next, scan.next != 0;
      KeptIsHeld(s, was, store.View(), workerId, scan, slots, kept);
      claimed := Listing(kept, store.g);
      PassReply(s, workerId, scan, slots, kept, store.g);
    }
  }

  /** What the script's reply says of each entry it kept. */
  function Listing(kept: seq<EntryId>, g: Group): seq<Claimed>
    requires forall e :: e in kept ==> e in g.stream && e in g.pel
  {
    seq(|kept|, i requires 0 <= i < |kept| && kept[i] in g.stream && kept[i] in g.pel =>
                  Claimed(kept[i], g.stream[kept[i]], g.pel[kept[i]].deliveries))
  }

  function SuspectsIn(s: Settings, claimed: seq<Claimed>): set<Claimed> {
    set c | c in claimed && s.IsSuspect(c.deliveries)
  }

  predicate Lists(claimed: seq<Claimed>, e: EntryId) {
    exists c :: c in claimed && c.entry == e
  }

  /** In id order, and with their fields and new delivery counts: every scanned entry that is not a suspect,
      and the first suspects, as many as there are slots. */
  ghost predicate ListsHandedOut(s: Settings, scan: Scan, slots: nat, claimed: seq<Claimed>)
    requires scan.Valid(s)
  {
    && (forall i, k :: 0 <= i < k < |claimed| ==> claimed[i].entry < claimed[k].entry)
    && (forall c :: c in claimed ==> c.entry in scan.ids && c == Claimed(c.entry, scan.g.stream[c.entry], scan.g.pel[c.entry].deliveries + 1))
    && forall e :: e in scan.ids ==> (Lists(claimed, e) <==> HandsOut(s, scan.g.pel, scan.ids, slots, e))
  }

  /** And the store agrees: these entries, and no other scanned ones, are held under fresh leases. */
  ghost predicate HandedOutIsHeld(s: Settings, scan: Scan, w: Worker, slots: nat, g: Group)
    requires scan.Valid(s)
  {
    forall e :: e in scan.ids ==>
      e in g.pel && (HandsOut(s, scan.g.pel, scan.ids, slots, e) <==> g.pel[e] == Lease(w, scan.now, scan.g.pel[e].deliveries + 1))
  }

  lemma SameHandsOut(s: Settings, pel: map<EntryId, Lease>, pel1: map<EntryId, Lease>, ids: seq<EntryId>, slots: nat, e: EntryId)
    requires forall i :: i in ids ==> i in pel && i in pel1 && pel1[i] == pel[i]
    ensures HandsOut(s, pel, ids, slots, e) <==> HandsOut(s, pel1, ids, slots, e)
  {
    assert SuspectsBefore(s, pel, ids, e) == SuspectsBefore(s, pel1, ids, e);
  }

  /** The group holds what a pass over a scan kept. */
  ghost predicate Holds(s: Settings, scan: Scan, w: Worker, slots: nat, kept: seq<EntryId>, g: Group) {
    var p := Pass(scan.g.pel - scan.gone, slots, []);
    && (forall e :: e in scan.ids ==> e in p.pel)
    && kept == ClaimAll(s, p, w, scan.ids, scan.now).kept
    && g.pel == ClaimAll(s, p, w, scan.ids, scan.now).pel && g.stream == scan.g.stream
    && forall e :: e in kept ==> e in g.stream && e in g.pel
  }

  lemma KeptIsHeld(s: Settings, x: Queue, y: Queue, w: Worker, scan: Scan, slots: nat, kept: seq<EntryId>)
    requires scan.Valid(s) && scan.g == x.g && forall e :: e in scan.ids ==> e in x.g.pel && e !in scan.gone
    requires y == Scripts.Reclaim(s, x, w, scan.ids, scan.gone, slots, scan.now)
    requires kept == Scripts.ReclaimPass(s, x.g, w, scan.ids, scan.gone, slots, scan.now).kept
    ensures Holds(s, scan, w, slots, kept, y.g)
  {
    KeptWereClaimed(s, Pass(scan.g.pel - scan.gone, slots, []), w, scan.ids, scan.now);
  }

  /** The reply for such a pass. */
  lemma PassReply(s: Settings, w: Worker, scan: Scan, slots: nat, kept: seq<EntryId>, g: Group)
    requires scan.Valid(s) && Holds(s, scan, w, slots, kept, g)
    ensures var claimed := Listing(kept, g);
            && |claimed| <= scan.count && ListsHandedOut(s, scan, slots, claimed) && HandedOutIsHeld(s, scan, w, slots, g)
            && (forall e :: e in scan.ids && !s.IsSuspect(scan.g.pel[e].deliveries + 1) ==> Lists(claimed, e))
            && |SuspectsIn(s, claimed)| <= slots
            && ((exists e :: e in scan.ids && !Lists(claimed, e)) ==> |SuspectsIn(s, claimed)| == slots)
  {
    PassHandsOut(s, Pass(scan.g.pel - scan.gone, slots, []), w, scan, slots, kept);
    ReplyLists(s, scan, w, slots, kept, g, Listing(kept, g));
    SuspectsAgain(s, g.pel, kept, Listing(kept, g));
  }

  /** What the pass keeps of a scan. */
  lemma PassHandsOut(s: Settings, p: Pass, w: Worker, scan: Scan, slots: nat, kept: seq<EntryId>)
    requires scan.Valid(s) && p == Pass(scan.g.pel - scan.gone, slots, [])
    requires (forall e :: e in scan.ids ==> e in p.pel) && kept == ClaimAll(s, p, w, scan.ids, scan.now).kept
    ensures Rising(kept) && |kept| <= |scan.ids| && forall e :: e in kept ==> e in scan.ids
    ensures forall e :: e in scan.ids ==> (e in kept <==> HandsOut(s, scan.g.pel, scan.ids, slots, e))
    ensures var r := ClaimAll(s, p, w, scan.ids, scan.now);
            && (forall e :: e in scan.ids ==> ClaimedOrPutBack(s, scan.g.pel[e], r.pel[e], e in kept, w, scan.now))
            && (forall e :: e in kept ==> e in r.pel) && |Suspects(s, r.pel, kept)| <= slots
            && ((exists e :: e in scan.ids && e !in kept) ==> |Suspects(s, r.pel, kept)| == slots)
  {
    KeptInOrder(s, p, w, scan.ids, scan.now);
    KeptWereClaimed(s, p, w, scan.ids, scan.now);
    assert Undecided(p, scan.ids);
    SuspectsUseSlots(s, p, w, scan.ids, scan.now);
    forall e | e in scan.ids
      ensures e in kept <==> HandsOut(s, scan.g.pel, scan.ids, slots, e)
      ensures ClaimedOrPutBack(s, scan.g.pel[e], ClaimAll(s, p, w, scan.ids, scan.now).pel[e], e in kept, w, scan.now)
    {
      KeptIff(s, p, w, scan.ids, scan.now, e);
      SameHandsOut(s, scan.g.pel, p.pel, scan.ids, slots, e);
      ClaimAllEffect(s, p, w, scan.ids, scan.now, e);
    }
    if e :| e in scan.ids && e !in kept {
      LeftOutWhenUsedUp(s, p, w, scan.ids, scan.now, e);
    }
  }

  lemma ReplyLists(s: Settings, scan: Scan, w: Worker, slots: nat, kept: seq<EntryId>, g: Group, claimed: seq<Claimed>)
    requires scan.Valid(s) && g.stream == scan.g.stream && |claimed| == |kept| && Rising(kept) && forall e :: e in kept ==> e in scan.ids
    requires forall e :: e in scan.ids ==> (e in kept <==> HandsOut(s, scan.g.pel, scan.ids, slots, e))
    requires forall e :: e in scan.ids ==> e in g.pel && ClaimedOrPutBack(s, scan.g.pel[e], g.pel[e], e in kept, w, scan.now)
    requires forall i :: 0 <= i < |kept| ==> kept[i] in g.pel && claimed[i] == Claimed(kept[i], g.stream[kept[i]], g.pel[kept[i]].deliveries)
    ensures ListsHandedOut(s, scan, slots, claimed) && HandedOutIsHeld(s, scan, w, slots, g)
    ensures forall e :: e in kept <==> Lists(claimed, e)
  {
    forall e ensures e in kept <==> Lists(claimed, e) {
      if e in kept {
        var i :| 0 <= i < |kept| && kept[i] == e;
        assert claimed[i] in claimed && claimed[i].entry == e;
      }
      if Lists(claimed, e) {
        var c :| c in claimed && c.entry == e;
        var i :| 0 <= i < |claimed| && claimed[i] == c;
        assert kept[i] == e;
      }
    }
  }

  /** The suspects among the claims are the suspects among the entries. */
  lemma SuspectsAgain(s: Settings, pel: map<EntryId, Lease>, kept: seq<EntryId>, claimed: seq<Claimed>)
    requires |claimed| == |kept| && forall e :: e in kept ==> e in pel
    requires forall i :: 0 <= i < |kept| ==> claimed[i].entry == kept[i] && claimed[i].deliveries == pel[kept[i]].deliveries
    requires forall i, k :: 0 <= i < |kept| && 0 <= k < |kept| && kept[i] == kept[k] ==> claimed[i] == claimed[k]
    ensures |SuspectsIn(s, claimed)| == |Suspects(s, pel, kept)|
  {
    SameSize(SuspectsIn(s, claimed), Suspects(s, pel, kept), kept, claimed);
  }

  lemma {:induction false} SameSize(cs: set<Claimed>, es: set<EntryId>, kept: seq<EntryId>, claimed: seq<Claimed>)
    requires |claimed| == |kept|
    requires forall i, k :: 0 <= i < |kept| && 0 <= k < |kept| && kept[i] == kept[k] ==> claimed[i] == claimed[k]
    requires forall i :: 0 <= i < |kept| ==> claimed[i].entry == kept[i] && (claimed[i] in cs <==> kept[i] in es)
    requires (forall c :: c in cs ==> c in claimed) && forall e :: e in es ==> e in kept
    ensures |cs| == |es|
    decreases |es|
  {
    if es == {} {
      assert cs == {};
    } else {
      var e :| e in es;
      var i :| 0 <= i < |kept| && kept[i] == e;
      SameSize(cs - {claimed[i]}, es - {e}, kept, claimed);
    }
  }
}
