/** The chaos verifier (`chaos/verifier.py`) as a decision procedure: its loops accept exactly when
    the invariants hold of what Redis recorded. */
module Verifier {
  import opened QueueTypes

  /** The job kinds of `chaos/mix.py`, and how each must end. */
  datatype Kind = Normal | Flaky | Slow | Cpu | Hang | HangThread | HangProcess | HangForever | Poison | Crashy
  {
    predicate MustDie() {
      HangForever? || Poison? || Crashy?
    }

    function Effect(): Option<Prefix> {
      match this
      case Normal => Some(0)
      case Flaky => Some(1)
      case Slow => Some(2)
      case Hang => Some(3)
      case _ => None
    }

    function Reason(): DeadReason
      requires MustDie()
    {
      if Crashy? then MaxDeliveries else MaxAttempts
    }
  }

  /** The accepted jobs, in the order they were accepted. */
  datatype Accepted = Accepted(order: seq<JobId>, kinds: map<JobId, Kind>)
  {
    ghost predicate Valid() {
      && (forall j :: j in order <==> j in kinds)
      && (forall i, k :: 0 <= i < k < |order| ==> order[i] != order[k])
    }
  }

  /** Everything the verifier reads. */
  datatype Evidence = Evidence(done: map<JobId, Terminal>, results: seq<JobId>, effects: seq<EffectKey>,
                               dlq: seq<DeadJob>, stats: Stats, stream: nat, pel: nat, delayed: nat)
  {
    predicate Succeeded(j: JobId) {
      j in done && done[j].Succeeded?
    }
  }

  /** What is counted in a chaos run: by the orchestrator, and the three that the queue counts itself. */
  datatype Event =
    | Kills | Pauses | NetworkWindows | Reclaimed | DuplicatesSuppressed | Timeouts | PoolResets | CrashRestarts
    | UnexpectedExits | ErrorLogLines

  /** The orchestrator's counts; an event it does not name did not happen. */
  type Counts = map<Event, nat>

  function CountOf(counts: Counts, event: Event): nat {
    if event in counts then counts[event] else 0
  }

  /** I4's fields. */
  datatype Minimums = Minimums(kills: nat, pauses: nat, networkWindows: nat, reclaimed: nat,
                               duplicatesSuppressed: nat, timeouts: nat, poolResets: nat, crashRestarts: nat)

  const MINIMUMS := Minimums(3, 3, 6, 1, 1, 1, 1, 1)

  /** The queue's settings, and what the orchestrator counted, if it ran. */
  datatype Limits = Limits(maxAttempts: nat, maxDeliveries: nat, counted: Option<Counts>, minimums: Option<Minimums>)

  const SAMPLE := 20

  /** Whom a violation is about. */
  datatype Subject = OfJob(id: JobId) | OfKey(key: EffectKey) | OfEvent(event: Event) | OfRun

  class Check {
    var ok: bool
    var violations: seq<Subject>

    constructor (first: bool)
      ensures ok == first && violations == []
    {
      ok, violations := first, [];
    }

    method Fail(about: Subject)
      modifies this
      ensures !ok && violations == if |old(violations)| < SAMPLE then old(violations) + [about] else old(violations)
    {
      ok := false;
      if |violations| < SAMPLE {
        violations := violations + [about];
      }
    }

    /** The closing loop of I2, I2b and I3: whatever is logged but belongs to no accepted job. */
    method FailEach(stray: set<Subject>)
      requires Sampled(ok, violations)
      modifies this
      ensures Sampled(ok, violations) && (ok <==> old(ok) && stray == {})
    {
      var rest := stray;
      while rest != {}
        invariant Sampled(ok, violations) && rest <= stray && (ok <==> old(ok) && rest == stray)
      {
        var about :| about in rest;
        rest := rest - {about};
        Fail(about);
      }
    }
  }

  /** How a check's verdict and its sample of violations go together. */
  predicate Sampled(ok: bool, violations: seq<Subject>) {
    |violations| <= SAMPLE && (ok <==> violations == [])
  }

  // ---------------------------------------------------------------- what is checked

  /** I1: every accepted job ended, and as its kind must; nobody was DEAD only for a while. */
  ghost predicate NoLoss(a: Accepted, ev: Evidence) {
    && (forall j :: j in a.kinds ==> EndedWell(a.kinds[j], ev, j))
    && ev.stats.lateSuccesses == 0
  }

  predicate EndedWell(k: Kind, ev: Evidence, j: JobId) {
    j in ev.done && (ev.done[j].Dead? <==> k.MustDie())
  }

  /** The effect key of an accepted SUCCEEDED job whose kind has an effect. */
  predicate IsDue(a: Accepted, ev: Evidence, key: EffectKey) {
    key.job in a.kinds && a.kinds[key.job].Effect() == Some(key.prefix) && ev.Succeeded(key.job)
  }

  /** I2: the effects log is the set of due keys, each once. */
  ghost predicate EffectsExact(a: Accepted, ev: Evidence) {
    forall key :: multiset(ev.effects)[key] == if IsDue(a, ev, key) then 1 else 0
  }

  /** I2b: the results log is the set of SUCCEEDED accepted jobs, each once. */
  ghost predicate ResultsExact(a: Accepted, ev: Evidence) {
    forall j :: multiset(ev.results)[j] == if j in a.kinds && ev.Succeeded(j) then 1 else 0
  }

  /** The DLQ entries of one job, oldest first. */
  function Entries(dlq: seq<DeadJob>, j: JobId): (r: seq<DeadJob>)
    ensures forall d :: d in r <==> d in dlq && d.jobId == j
  {
    if dlq == [] then []
    else
      var last := dlq[|dlq| - 1];
      assert dlq == dlq[..|dlq| - 1] + [last];
      Entries(dlq[..|dlq| - 1], j) + if last.jobId == j then [last] else []
  }

  predicate Contains(text: string, part: string) {
    exists i :: 0 <= i <= |text| && part <= text[i..]
  }

  predicate DiedWell(k: Kind, d: DeadJob, limits: Limits)
    requires k.MustDie()
  {
    && d.reason == k.Reason()
    && (k.Crashy? ==> limits.maxDeliveries < d.deliveries)
    && (!k.Crashy? ==> d.attempts == limits.maxAttempts)
    && (k.HangForever? ==> Contains(d.error, "HandlerTimeout"))
  }

  /** I3's membership part: each job that must die is in the DLQ once, and nothing else is. */
  ghost predicate DlqMembership(a: Accepted, ev: Evidence) {
    forall j :: InDlqAsMeant(a, ev, j)
  }

  predicate InDlqAsMeant(a: Accepted, ev: Evidence, j: JobId) {
    |Entries(ev.dlq, j)| == if j in a.kinds && a.kinds[j].MustDie() then 1 else 0
  }

  ghost predicate DiedAsMeant(a: Accepted, ev: Evidence, limits: Limits) {
    forall d :: d in ev.dlq && d.jobId in a.kinds && a.kinds[d.jobId].MustDie() ==> DiedWell(a.kinds[d.jobId], d, limits)
  }

  function CrashyJobs(a: Accepted): set<JobId> {
    set j | j in a.kinds && a.kinds[j].Crashy?
  }

  predicate CrashesBounded(a: Accepted, limits: Limits) {
    limits.counted.Some? ==> CountOf(limits.counted.value, CrashRestarts) <= |CrashyJobs(a)| * limits.maxDeliveries
  }

  /** I3 in full. */
  ghost predicate DlqCorrect(a: Accepted, ev: Evidence, limits: Limits) {
    DlqMembership(a, ev) && DiedAsMeant(a, ev, limits) && CrashesBounded(a, limits)
  }

  /** I5. */
  predicate Drained(ev: Evidence) {
    ev.stream == 0 && ev.pel == 0 && ev.delayed == 0
  }

  /** I4: the faults happened, and the queue saw them. Its own three counts come from the queue, whatever
      the orchestrator says of them. */
  predicate FaultsHappened(ev: Evidence, counts: Counts, m: Minimums) {
    && m.kills <= CountOf(counts, Kills) && m.pauses <= CountOf(counts, Pauses)
    && m.networkWindows <= CountOf(counts, NetworkWindows) && m.poolResets <= CountOf(counts, PoolResets)
    && m.crashRestarts <= CountOf(counts, CrashRestarts)
    && m.reclaimed <= ev.stats.reclaimed && m.duplicatesSuppressed <= ev.stats.duplicatesSuppressed
    && m.timeouts <= ev.stats.timeouts
  }

  /** W1: only crashy jobs ended a worker, and no worker logged an error. */
  predicate WorkersHealthy(counts: Counts) {
    CountOf(counts, UnexpectedExits) == 0 == CountOf(counts, ErrorLogLines)
  }

  function MinimumsOf(limits: Limits): Minimums {
    if limits.minimums.Some? then limits.minimums.value else MINIMUMS
  }

  /** The verdict: I1, I2, I2b, I3 and I5, and I4 and W1 if an orchestrator counted. */
  ghost predicate Passes(a: Accepted, ev: Evidence, limits: Limits) {
    && NoLoss(a, ev) && EffectsExact(a, ev) && ResultsExact(a, ev) && DlqCorrect(a, ev, limits) && Drained(ev)
    && (limits.counted.Some? ==> FaultsHappened(ev, limits.counted.value, MinimumsOf(limits)) && WorkersHealthy(limits.counted.value))
  }

  // ---------------------------------------------------------------- how it is checked

  method CheckNoLoss(a: Accepted, ev: Evidence) returns (c: Check)
    requires a.Valid()
    ensures fresh(c) && (c.ok <==> NoLoss(a, ev)) && Sampled(c.ok, c.violations)
  {
    c := new Check(true);
    for i := 0 to |a.order|
      invariant c.ok <==> forall k :: 0 <= k < i ==> EndedWell(a.kinds[a.order[k]], ev, a.order[k])
      invariant Sampled(c.ok, c.violations)
    {
      var j := a.order[i];
      if j !in ev.done {
        c.Fail(OfJob(j));
      } else if ev.done[j].Dead? != a.kinds[j].MustDie() {
        c.Fail(OfJob(j));
      }
    }
    if ev.stats.lateSuccesses != 0 {
      c.Fail(OfRun);
    }
  }

  /** The keys that the first `n` accepted jobs may have an effect under. */
  ghost predicate AreExpected(a: Accepted, n: nat, expected: set<EffectKey>)
    requires a.Valid() && n <= |a.order|
  {
    forall key :: key in expected <==> key.job in a.order[..n] && a.kinds[key.job].Effect() == Some(key.prefix)
  }

  lemma ExpectedNext(a: Accepted, n: nat, expected: set<EffectKey>)
    requires a.Valid() && n < |a.order| && AreExpected(a, n, expected)
    ensures var effect := a.kinds[a.order[n]].Effect();
            AreExpected(a, n + 1, if effect.Some? then expected + {EffectKey(effect.value, a.order[n])} else expected)
  {
    assert a.order[..n + 1] == a.order[..n] + [a.order[n]];
  }

  /** Each of these keys is logged as often as it is due. */
  ghost predicate LoggedAsDue(a: Accepted, ev: Evidence, expected: set<EffectKey>) {
    forall key :: key in expected ==> multiset(ev.effects)[key] == if IsDue(a, ev, key) then 1 else 0
  }

  /** The loop over the accepted jobs. */
  method CheckExpected(a: Accepted, ev: Evidence) returns (c: Check, expected: set<EffectKey>)
    requires a.Valid()
    ensures fresh(c) && Sampled(c.ok, c.violations)
    ensures AreExpected(a, |a.order|, expected) && (c.ok <==> LoggedAsDue(a, ev, expected))
  {
    c := new Check(true);
    var effects := multiset(ev.effects);
    expected := {};
    for i := 0 to |a.order|
      invariant AreExpected(a, i, expected) && (c.ok <==> LoggedAsDue(a, ev, expected)) && Sampled(c.ok, c.violations)
    {
      var j := a.order[i];
      ExpectedNext(a, i, expected);
      if a.kinds[j].Effect().Some? {
        var key := EffectKey(a.kinds[j].Effect().value, j);
        expected := expected + {key};
        var want := if ev.Succeeded(j) then 1 else 0;
        if effects[key] != want {
          c.Fail(OfKey(key));
        }
      }
    }
  }

  /** Nothing is stray exactly when whatever is logged is expected; and then the log is exact. */
  lemma StrayAgrees(a: Accepted, ev: Evidence, expected: set<EffectKey>, stray: set<Subject>)
    requires a.Valid() && AreExpected(a, |a.order|, expected) && stray == set key | key in ev.effects && key !in expected :: OfKey(key)
    ensures LoggedAsDue(a, ev, expected) && stray == {} <==> EffectsExact(a, ev)
  {
    assert a.order[..|a.order|] == a.order;
    if exists key :: key in ev.effects && key !in expected {
      var key :| key in ev.effects && key !in expected;
      assert OfKey(key) in stray;
      assert multiset(ev.effects)[key] > 0 && !IsDue(a, ev, key);
    } else {
      forall key | key !in expected ensures multiset(ev.effects)[key] == 0 && !IsDue(a, ev, key) {
        assert key !in ev.effects;
      }
    }
  }

  method CheckEffects(a: Accepted, ev: Evidence) returns (c: Check)
    requires a.Valid()
    ensures fresh(c) && (c.ok <==> EffectsExact(a, ev)) && Sampled(c.ok, c.violations)
  {
    var expected;
    c, expected := CheckExpected(a, ev);
    var stray := set key | key in ev.effects && key !in expected :: OfKey(key);
    StrayAgrees(a, ev, expected, stray);
    c.FailEach(stray);
  }

  method CheckResults(a: Accepted, ev: Evidence) returns (c: Check)
    requires a.Valid()
    ensures fresh(c) && (c.ok <==> ResultsExact(a, ev)) && Sampled(c.ok, c.violations)
  {
    c := new Check(true);
    var results := multiset(ev.results);
    for i := 0 to |a.order|
      invariant c.ok <==> forall k :: 0 <= k < i ==> results[a.order[k]] == if ev.Succeeded(a.order[k]) then 1 else 0
      invariant Sampled(c.ok, c.violations)
    {
      var want := if ev.Succeeded(a.order[i]) then 1 else 0;
      if results[a.order[i]] != want {
        c.Fail(OfJob(a.order[i]));
      }
    }
    var stray := set j | j in ev.results && j !in a.kinds :: OfJob(j);
    assert stray == {} <==> forall j :: results[j] > 0 ==> j in a.kinds by {
      forall j | results[j] > 0 && j !in a.kinds ensures OfJob(j) in stray {
        assert j in ev.results;
      }
    }
    c.FailEach(stray);
  }

  /** The entries of each job, and no empty list. */
  ghost predicate Groups(byJob: map<JobId, seq<DeadJob>>, dlq: seq<DeadJob>) {
    && (forall j :: Entries(dlq, j) == if j in byJob then byJob[j] else [])
    && forall j :: j in byJob ==> byJob[j] != []
  }

  lemma EntriesNext(dlq: seq<DeadJob>, d: DeadJob, j: JobId)
    ensures Entries(dlq + [d], j) == Entries(dlq, j) + if d.jobId == j then [d] else []
  {
    assert (dlq + [d])[..|dlq|] == dlq;
  }

  lemma GroupsNext(byJob: map<JobId, seq<DeadJob>>, dlq: seq<DeadJob>, d: DeadJob)
    requires Groups(byJob, dlq)
    ensures Groups(byJob[d.jobId := (if d.jobId in byJob then byJob[d.jobId] else []) + [d]], dlq + [d])
  {
    var after := byJob[d.jobId := (if d.jobId in byJob then byJob[d.jobId] else []) + [d]];
    forall j ensures Entries(dlq + [d], j) == if j in after then after[j] else [] {
      EntriesNext(dlq, d, j);
    }
  }

  /** `dlq_by_job`. */
  method GroupByJob(dlq: seq<DeadJob>) returns (byJob: map<JobId, seq<DeadJob>>)
    ensures Groups(byJob, dlq)
  {
    byJob := map[];
    for i := 0 to |dlq|
      invariant Groups(byJob, dlq[..i])
    {
      var d := dlq[i];
      assert dlq[..i + 1] == dlq[..i] + [d];
      GroupsNext(byJob, dlq[..i], d);
      byJob := byJob[d.jobId := (if d.jobId in byJob then byJob[d.jobId] else []) + [d]];
    }
    assert dlq[..|dlq|] == dlq;
  }

  /** What one accepted job's DLQ entries must be. */
  predicate EntriesRight(k: Kind, entries: seq<DeadJob>, limits: Limits) {
    if k.MustDie() then |entries| == 1 && DiedWell(k, entries[0], limits) else entries == []
  }

  /** The loop's question about each accepted job. */
  predicate JobRight(a: Accepted, ev: Evidence, limits: Limits, j: JobId)
    requires j in a.kinds
  {
    EntriesRight(a.kinds[j], Entries(ev.dlq, j), limits)
  }

  /** The loop body for one job: the chain of tests fails it exactly when its entries are wrong. */
  method JobFails(kind: Kind, entries: seq<DeadJob>, limits: Limits) returns (wrong: bool)
    ensures wrong <==> !EntriesRight(kind, entries, limits)
  {
    if !kind.MustDie() {
      return entries != [];
    }
    if |entries| != 1 {
      return true;
    }
    var e := entries[0];
    if e.reason != kind.Reason() {
      return true;
    } else if kind.Crashy? && e.deliveries <= limits.maxDeliveries {
      return true;
    } else if (kind.Poison? || kind.HangForever?) && e.attempts != limits.maxAttempts {
      return true;
    } else if kind.HangForever? && !Contains(e.error, "HandlerTimeout") {
      return true;
    }
    return false;
  }

  /** The first `n` accepted jobs are as they should be. */
  ghost predicate JobsRight(a: Accepted, ev: Evidence, limits: Limits, n: nat)
    requires a.Valid() && n <= |a.order|
  {
    forall k :: 0 <= k < n ==> JobRight(a, ev, limits, a.order[k])
  }

  lemma JobsRightNext(a: Accepted, ev: Evidence, limits: Limits, n: nat)
    requires a.Valid() && n < |a.order|
    ensures JobsRight(a, ev, limits, n + 1) <==> JobsRight(a, ev, limits, n) && JobRight(a, ev, limits, a.order[n])
  {
  }

  method CheckJobs(a: Accepted, ev: Evidence, limits: Limits, byJob: map<JobId, seq<DeadJob>>) returns (c: Check)
    requires a.Valid() && Groups(byJob, ev.dlq)
    ensures fresh(c) && Sampled(c.ok, c.violations) && (c.ok <==> forall j :: j in a.order ==> JobRight(a, ev, limits, j))
  {
    c := new Check(true);
    for i := 0 to |a.order|
      invariant (c.ok <==> JobsRight(a, ev, limits, i)) && Sampled(c.ok, c.violations)
    {
      var j := a.order[i];
      var wrong := JobFails(a.kinds[j], if j in byJob then byJob[j] else [], limits);
      if wrong {
        c.Fail(OfJob(j));
      }
      JobsRightNext(a, ev, limits, i);
    }
  }

  method CheckDlq(a: Accepted, ev: Evidence, limits: Limits) returns (c: Check)
    requires a.Valid()
    ensures fresh(c) && (c.ok <==> DlqCorrect(a, ev, limits)) && Sampled(c.ok, c.violations)
  {
    var byJob := GroupByJob(ev.dlq);
    c := CheckJobs(a, ev, limits, byJob);
    var stray := set j | j in byJob && j !in a.kinds :: OfJob(j);
    assert stray == {} <==> forall j :: Entries(ev.dlq, j) != [] ==> j in a.kinds by {
      forall j | j in byJob && j !in a.kinds ensures OfJob(j) in stray {
      }
    }
    c.FailEach(stray);
    DlqAgrees(a, ev, limits);
    if limits.counted.Some? && CountOf(limits.counted.value, CrashRestarts) > |CrashyJobs(a)| * limits.maxDeliveries {
      c.Fail(OfRun);
    }
  }

  lemma JobAgrees(a: Accepted, ev: Evidence, limits: Limits, j: JobId)
    requires j in a.kinds
    ensures JobRight(a, ev, limits, j) <==>
            InDlqAsMeant(a, ev, j) && (a.kinds[j].MustDie() ==> forall d :: d in ev.dlq && d.jobId == j ==> DiedWell(a.kinds[j], d, limits))
  {
    var entries := Entries(ev.dlq, j);
    if |entries| == 1 {
      assert entries[0] in entries;
      assert forall d :: d in entries ==> d == entries[0];
    }
  }

  /** The loop's questions, put together, are the invariant. */
  lemma DlqAgrees(a: Accepted, ev: Evidence, limits: Limits)
    requires a.Valid()
    ensures DlqMembership(a, ev) && DiedAsMeant(a, ev, limits) <==>
            && (forall j :: j in a.order ==> JobRight(a, ev, limits, j))
            && (forall j :: Entries(ev.dlq, j) != [] ==> j in a.kinds)
  {
    forall j | j in a.kinds
      ensures JobRight(a, ev, limits, j) <==>
              InDlqAsMeant(a, ev, j) && (a.kinds[j].MustDie() ==> forall d :: d in ev.dlq && d.jobId == j ==> DiedWell(a.kinds[j], d, limits))
    {
      JobAgrees(a, ev, limits, j);
    }
    if DlqMembership(a, ev) && DiedAsMeant(a, ev, limits) {
      forall j | j in a.order ensures JobRight(a, ev, limits, j) {
        assert InDlqAsMeant(a, ev, j);
      }
      forall j | Entries(ev.dlq, j) != [] ensures j in a.kinds {
        assert InDlqAsMeant(a, ev, j);
      }
    }
    if (forall j :: j in a.order ==> JobRight(a, ev, limits, j)) && (forall j :: Entries(ev.dlq, j) != [] ==> j in a.kinds) {
      forall j ensures InDlqAsMeant(a, ev, j) {
        assert j in a.kinds ==> JobRight(a, ev, limits, j);
      }
      forall d | d in ev.dlq && d.jobId in a.kinds && a.kinds[d.jobId].MustDie() ensures DiedWell(a.kinds[d.jobId], d, limits) {
        assert JobRight(a, ev, limits, d.jobId);
      }
    }
  }

  method CheckDrained(ev: Evidence) returns (c: Check)
    ensures fresh(c) && (c.ok <==> Drained(ev))
  {
    c := new Check(ev.stream == ev.pel == ev.delayed == 0);
  }

  /** The eight minimums by name. */
  function Vars(m: Minimums): seq<(Event, nat)> {
    [(Kills, m.kills), (Pauses, m.pauses), (NetworkWindows, m.networkWindows), (Reclaimed, m.reclaimed),
     (DuplicatesSuppressed, m.duplicatesSuppressed), (Timeouts, m.timeouts), (PoolResets, m.poolResets),
     (CrashRestarts, m.crashRestarts)]
  }

  method CheckFaults(ev: Evidence, counts: Counts, m: Minimums) returns (c: Check)
    ensures fresh(c) && Sampled(c.ok, c.violations) && (c.ok <==> FaultsHappened(ev, counts, m))
  {
    c := new Check(true);
    var seen := counts[Reclaimed := ev.stats.reclaimed][DuplicatesSuppressed := ev.stats.duplicatesSuppressed][Timeouts := ev.stats.timeouts];
    var vars := Vars(m);
    for i := 0 to |vars|
      invariant c.ok <==> forall k :: 0 <= k < i ==> vars[k].1 <= CountOf(seen, vars[k].0)
      invariant Sampled(c.ok, c.violations)
    {
      if CountOf(seen, vars[i].0) < vars[i].1 {
        c.Fail(OfEvent(vars[i].0));
      }
    }
    SeenEnough(ev, counts, m, seen);
  }

  lemma SeenEnough(ev: Evidence, counts: Counts, m: Minimums, seen: Counts)
    requires seen == counts[Reclaimed := ev.stats.reclaimed][DuplicatesSuppressed := ev.stats.duplicatesSuppressed][Timeouts := ev.stats.timeouts]
    ensures FaultsHappened(ev, counts, m) <==> forall k :: 0 <= k < |Vars(m)| ==> Vars(m)[k].1 <= CountOf(seen, Vars(m)[k].0)
  {
    var vars := Vars(m);
    assert vars[0].0 == Kills && vars[1].0 == Pauses && vars[2].0 == NetworkWindows && vars[3].0 == Reclaimed;
    assert vars[4].0 == DuplicatesSuppressed && vars[5].0 == Timeouts && vars[6].0 == PoolResets && vars[7].0 == CrashRestarts;
  }

  method CheckWorkers(counts: Counts) returns (c: Check)
    ensures fresh(c) && Sampled(c.ok, c.violations) && (c.ok <==> WorkersHealthy(counts))
  {
    c := new Check(true);
    if CountOf(counts, UnexpectedExits) != 0 {
      c.Fail(OfEvent(UnexpectedExits));
    }
    if CountOf(counts, ErrorLogLines) != 0 {
      c.Fail(OfEvent(ErrorLogLines));
    }
  }

  /** The verdict is whether every check passed. */
  method Verify(a: Accepted, ev: Evidence, limits: Limits) returns (passed: bool)
    requires a.Valid()
    ensures passed <==> Passes(a, ev, limits)
  {
    var i1 := CheckNoLoss(a, ev);
    var i2 := CheckEffects(a, ev);
    var i2b := CheckResults(a, ev);
    var i3 := CheckDlq(a, ev, limits);
    var i5 := CheckDrained(ev);
    passed := i1.ok && i2.ok && i2b.ok && i3.ok && i5.ok;
    if limits.counted.Some? {
      var i4 := CheckFaults(ev, limits.counted.value, MinimumsOf(limits));
      var w1 := CheckWorkers(limits.counted.value);
      passed := passed && i4.ok && w1.ok;
    }
  }
}
