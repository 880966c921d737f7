/** The chaos report's margin under `max_deliveries` (`chaos/verifier.py`): what the reclaim histogram
    says about the entries that were not dead-lettered crashy jobs. */
module ReclaimMargin {
  import opened QueueTypes
  import opened Verifier
  import opened ReclaimAccounting
  import opened DrainedRuns
  import Protocol

  predicate IsCrashy(kinds: map<JobId, Kind>, d: DeadJob) {
    d.jobId in kinds && kinds[d.jobId].Crashy?
  }

  /** `crashy_dlq_deliveries`. */
  function CrashyDeliveries(kinds: map<JobId, Kind>, dlq: seq<DeadJob>): seq<nat> {
    if dlq == [] then []
    else
      CrashyDeliveries(kinds, dlq[..|dlq| - 1]) +
      if IsCrashy(kinds, dlq[|dlq| - 1]) then [dlq[|dlq| - 1].deliveries] else []
  }

  /** How many of the counts passed through `n` on the way up from 2. */
  function Through(counts: seq<nat>, n: nat): nat {
    if counts == [] then 0
    else Through(counts[..|counts| - 1], n) + if 2 <= n <= counts[|counts| - 1] then 1 else 0
  }

  function Get(m: map<nat, int>, n: nat): int {
    if n in m then m[n] else 0
  }

  /** The subtraction: one reclaim at each count from 2 up to each crashy entry's last. */
  method ExcludingCrashy(histogram: map<nat, nat>, counts: seq<nat>) returns (others: map<nat, int>, highest: nat)
    ensures forall n :: n in others <==> Times(histogram, n) != Through(counts, n)
    ensures forall n :: n in others ==> others[n] == Times(histogram, n) - Through(counts, n)
    ensures if others == map[] then highest == 1 else highest in others && forall n :: n in others ==> n <= highest
  {
    var all: map<nat, int> := map n | n in histogram :: histogram[n];
    for i := 0 to |counts|
      invariant forall n: nat :: Get(all, n) == Times(histogram, n) - Through(counts[..i], n)
    {
      var n := 2;
      while n <= counts[i]
        invariant 2 <= n <= counts[i] + 1 || counts[i] < n == 2
        invariant forall m: nat :: Get(all, m) == Times(histogram, m) - Through(counts[..i], m) - if 2 <= m < n then 1 else 0
      {
        all := all[n := (if n in all then all[n] else 0) - 1];
        n := n + 1;
      }
      assert counts[..i + 1][..i] == counts[..i];
    }
    assert counts[..|counts|] == counts;
    others := map n | n in all && all[n] != 0 :: all[n];
    assert forall n: nat :: n in others <==> Get(all, n) != 0;
    highest := 1;
    var rest := others.Keys;
    while rest != {}
      invariant rest <= others.Keys
      invariant if rest == others.Keys then highest == 1
                else highest in others && forall n :: n in others && n !in rest ==> n <= highest
    {
      var n :| n in rest;
      highest := if rest == others.Keys || highest < n then n else highest;
      rest := rest - {n};
    }
  }

  // ---------------------------------------------------------------- what is left, in a run

  /** The stream entries that dead-lettered crashy jobs had. */
  function Sources(kinds: map<JobId, Kind>, dlq: map<EntryId, DeadJob>, upto: EntryId): set<EntryId> {
    set d | d in dlq && d < upto && IsCrashy(kinds, dlq[d]) :: dlq[d].source
  }

  lemma CrashyLast(kinds: map<JobId, Kind>, dlq: seq<DeadJob>, d: DeadJob, n: nat)
    requires 2 <= n
    ensures Through(CrashyDeliveries(kinds, dlq + [d]), n) ==
            Through(CrashyDeliveries(kinds, dlq), n) + if IsCrashy(kinds, d) && n <= d.deliveries then 1 else 0
  {
    assert (dlq + [d])[..|dlq|] == dlq;
    var counts := CrashyDeliveries(kinds, dlq);
    if IsCrashy(kinds, d) {
      assert (counts + [d.deliveries])[..|counts|] == counts;
    } else {
      assert counts + [] == counts;
    }
  }

  lemma SourcesGrow(kinds: map<JobId, Kind>, dlq: map<EntryId, DeadJob>, d: EntryId)
    ensures Sources(kinds, dlq, d + 1) ==
            Sources(kinds, dlq, d) + if d in dlq && IsCrashy(kinds, dlq[d]) then {dlq[d].source} else {}
  {
    forall e | e in Sources(kinds, dlq, d + 1)
      ensures e in Sources(kinds, dlq, d) || (d in dlq && IsCrashy(kinds, dlq[d]) && e == dlq[d].source)
    {
      var k :| k in dlq && k < d + 1 && IsCrashy(kinds, dlq[k]) && dlq[k].source == e;
      assert k < d || k == d;
    }
  }

  lemma SourcesNext(kinds: map<JobId, Kind>, g: Group, dlq: map<EntryId, DeadJob>, reach: map<EntryId, nat>, d: EntryId, n: nat)
    requires SourcesOk(g, dlq, reach)
    ensures |AtLeast(reach, n) * Sources(kinds, dlq, d + 1)| ==
            |AtLeast(reach, n) * Sources(kinds, dlq, d)| +
            if d in dlq && IsCrashy(kinds, dlq[d]) && n <= dlq[d].deliveries then 1 else 0
  {
    SourcesGrow(kinds, dlq, d);
    var most, before, after := AtLeast(reach, n), Sources(kinds, dlq, d), Sources(kinds, dlq, d + 1);
    if d in dlq && IsCrashy(kinds, dlq[d]) {
      var e := dlq[d].source;
      assert e !in before;
      OneMoreIn(most, before, e);
    }
  }

  lemma OneMoreIn(most: set<EntryId>, before: set<EntryId>, e: EntryId)
    requires e !in before
    ensures |most * (before + {e})| == |most * before| + if e in most then 1 else 0
  {
    if e in most {
      assert most * (before + {e}) == most * before + {e};
    } else {
      assert most * (before + {e}) == most * before;
    }
  }

  lemma {:induction false} ThroughCountsSources(kinds: map<JobId, Kind>, g: Group, dlq: map<EntryId, DeadJob>,
                                                reach: map<EntryId, nat>, upto: EntryId, n: nat)
    requires SourcesOk(g, dlq, reach) && 2 <= n
    ensures Through(CrashyDeliveries(kinds, Read(dlq, upto)), n) == |AtLeast(reach, n) * Sources(kinds, dlq, upto)|
    decreases upto
  {
    if upto == 0 {
      assert AtLeast(reach, n) * Sources(kinds, dlq, 0) == {};
    } else {
      var d := upto - 1;
      ThroughCountsSources(kinds, g, dlq, reach, d, n);
      SourcesNext(kinds, g, dlq, reach, d, n);
      if d in dlq {
        CrashyLast(kinds, Read(dlq, d), dlq[d], n);
      } else {
        assert Read(dlq, d) + [] == Read(dlq, d);
      }
    }
  }

  lemma {:induction false} ThroughFromTwo(counts: seq<nat>, n: nat)
    ensures n < 2 ==> Through(counts, n) == 0
    decreases |counts|
  {
    if counts != [] {
      ThroughFromTwo(counts[..|counts| - 1], n);
    }
  }

  /** The entries the report's margin is about: all but those of the crashy jobs in the DLQ. */
  function Others(kinds: map<JobId, Kind>, v: Verdicts, reach: map<EntryId, nat>): map<EntryId, nat> {
    reach - Sources(kinds, v.dlq, v.nextDead)
  }

  /** The subtraction is exact: it leaves, at each count, the number of other entries that reached
      it. So it is never negative, and its highest count is the highest any other entry reached. */
  lemma WhatIsLeft(s: Settings, kinds: map<JobId, Kind>, states: seq<Protocol.System>, acts: seq<Protocol.Action>, i: nat, n: nat)
    requires Protocol.IsRun(s, states, acts) && i < |states|
    ensures var q, reach := states[i].q, states[i].reach;
            Times(q.reclaims, n) - Through(CrashyDeliveries(kinds, Read(q.v.dlq, q.v.nextDead)), n) ==
            if n < 2 then 0 else |AtLeast(Others(kinds, q.v, reach), n)|
  {
    ReclaimsAreCounted(s, states, acts, i);
    var q, reach := states[i].q, states[i].reach;
    if n < 2 {
      ThroughFromTwo(CrashyDeliveries(kinds, Read(q.v.dlq, q.v.nextDead)), n);
    } else {
      var sources := Sources(kinds, q.v.dlq, q.v.nextDead);
      ThroughCountsSources(kinds, q.g, q.v.dlq, reach, q.v.nextDead, n);
      assert AtLeast(Others(kinds, q.v, reach), n) == AtLeast(reach, n) - AtLeast(reach, n) * sources;
    }
  }

  /** `max_delivery_excluding_crashy`, as `ExcludingCrashy` computes it from the histogram, is the
      highest delivery count that any other entry ever reached, and 1 if none was redelivered. */
  lemma HighestIsTrue(s: Settings, kinds: map<JobId, Kind>, states: seq<Protocol.System>, acts: seq<Protocol.Action>, i: nat,
                      others: map<nat, int>, highest: nat)
    requires Protocol.IsRun(s, states, acts) && i < |states|
    requires var q := states[i].q;
             var counts := CrashyDeliveries(kinds, Read(q.v.dlq, q.v.nextDead));
             && (forall n :: n in others <==> Times(q.reclaims, n) != Through(counts, n))
             && (forall n :: n in others ==> others[n] == Times(q.reclaims, n) - Through(counts, n))
    requires if others == map[] then highest == 1 else highest in others && forall n :: n in others ==> n <= highest
    ensures forall n :: n in others ==> 0 < others[n]
    ensures var reach := Others(kinds, states[i].q.v, states[i].reach);
            && (forall e :: e in reach ==> reach[e] <= highest || reach[e] < 2)
            && (highest == 1 || exists e :: e in reach && reach[e] == highest)
  {
    var reach := Others(kinds, states[i].q.v, states[i].reach);
    forall n: nat ensures n in others <==> 2 <= n && AtLeast(reach, n) != {} {
      WhatIsLeft(s, kinds, states, acts, i, n);
    }
    forall n | n in others ensures 0 < others[n] {
      WhatIsLeft(s, kinds, states, acts, i, n);
    }
    forall e | e in reach && 2 <= reach[e] ensures reach[e] <= highest {
      assert e in AtLeast(reach, reach[e]);
    }
    if highest != 1 {
      var e :| e in AtLeast(reach, highest);
      assert reach[e] <= highest by {
        assert e in AtLeast(reach, reach[e]);
      }
    }
  }
}
