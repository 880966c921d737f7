/** Never stuck: from every reachable state, one live worker can on its own bring any accepted
    job to a terminal state, whoever crashed before. */
module Progress {
  import opened QueueTypes
  import opened Scripts
  import opened Protocol
  import opened Invariants
  import opened NoLoss
  import opened Reachable
  import opened Guarantees
  import opened Leases
  import opened Behaviors

  /** The steps worker `w` takes by itself: its fetches, reclaims, scheduler passes and calls. */
  predicate IsBy(w: Worker, a: Action) {
    match a
    case DoFetch(v, _, _) => v == w
    case DoReclaim(v, _, _, _, _, _) => v == w
    case DoSchedule(v, _, _) => v == w
    case DoEffect(v, _) => v == w
    case DoCommit(v, _, _, _) => v == w
    case DoDead(v, _, _, _, _, _, _) => v == w
    case _ => false
  }

  /** A step of `w` while the clock reads `now`. */
  predicate IsByAt(w: Worker, now: int, a: Action) {
    IsBy(w, a) && (TimeOf(a).Some? ==> TimeOf(a).value == now)
  }

  /** A stretch from `x` to `y` made of steps of `w` only, all within one reading of the clock. */
  ghost predicate Leads(s: Settings, w: Worker, now: int, x: System, y: System, states: seq<System>, acts: seq<Action>) {
    && IsStretch(s, states, acts) && states[0] == x && states[|acts|] == y
    && forall i :: 0 <= i < |acts| ==> IsByAt(w, now, acts[i])
  }

  /** Every pending lease has run out and every retry is due. */
  ghost predicate AllDue(s: Settings, q: Queue, now: int) {
    && (forall e :: e in q.g.pel ==> s.lease <= now - q.g.pel[e].since)
    && forall m :: m in q.delayed ==> q.delayed[m] <= now
  }

  lemma NoSteps(s: Settings, w: Worker, now: int, x: System)
    ensures Leads(s, w, now, x, x, [x], [])
  {
  }

  lemma OneStep(s: Settings, w: Worker, now: int, x: System, a: Action, y: System)
    requires Next(s, x, a, y) && IsByAt(w, now, a)
    ensures Leads(s, w, now, x, y, [x, y], [a])
  {
    assert NextOf(s)(x, a, y);
  }

  lemma Then(s: Settings, w: Worker, now: int, x: System, y: System, z: System,
             states: seq<System>, acts: seq<Action>, states': seq<System>, acts': seq<Action>)
    requires Leads(s, w, now, x, y, states, acts) && Leads(s, w, now, y, z, states', acts')
    ensures Leads(s, w, now, x, z, states + states'[1..], acts + acts')
  {
    var all, moves := states + states'[1..], acts + acts';
    assert forall i :: |acts| <= i < |all| ==> all[i] == states'[i - |acts|];
    forall i | 0 <= i < |moves| ensures NextOf(s)(all[i], moves[i], all[i + 1]) {
      if i < |acts| {
        assert moves[i] == acts[i];
      } else {
        assert moves[i] == acts'[i - |acts|];
      }
    }
  }

  // ---------------------------------------------------------------- from the delayed set to the stream

  /** A scheduler pass always has an answer; with every member due, a non-empty set moves. */
  lemma {:induction false} DueRangeExists(delayed: map<Job, int>, now: int, limit: nat) returns (due: seq<Job>)
    ensures IsDueRange(delayed, now, limit, due)
    decreases limit
  {
    if limit == 0 {
      due := [];
    } else {
      due := DueRangeExists(delayed, now, limit - 1);
      var rest := map m | m in delayed && m !in due && delayed[m] <= now :: delayed[m];
      assert forall m :: m in delayed && m !in due && delayed[m] <= now ==> m in rest;
      if |due| == limit - 1 && rest != map[] {
        var m := Oldest(rest);
        due := due + [m];
      }
    }
  }

  lemma {:induction false} Oldest(rest: map<Job, int>) returns (m: Job)
    requires rest != map[]
    ensures m in rest && forall d :: d in rest ==> rest[m] <= rest[d]
    decreases |rest|
  {
    m :| m in rest;
    var others := rest - {m};
    assert forall d :: d in rest ==> d == m || d in others;
    if others != map[] {
      var m' := Oldest(others);
      if rest[m'] < rest[m] {
        m := m';
      }
    }
  }

  // ---------------------------------------------------------------- from the stream to the worker

  /** Fetching often enough delivers the entry. */
  lemma {:induction false} FetchReaches(g: Group, w: Worker, count: nat, now: int, e: EntryId)
    requires g.delivered <= g.nextId && e in g.stream && e < g.nextId
    requires g.delivered <= e && e - g.delivered < count
    ensures var r := FetchAll(g, w, count, now);
            r.stream == g.stream && e < r.delivered && e in r.pel && r.pel[e] == Lease(w, now, 1)
    decreases count
  {
    var n := NextFrom(g.stream, g.delivered, g.nextId);
    assert n <= e;
    FetchFrame(g, w, count, now);
    if n == e {
      FetchPel(FetchOne(g, w, now), w, count - 1, now, e);
    } else {
      FetchReaches(FetchOne(g, w, now), w, count - 1, now, e);
    }
  }

  /** `w` holds the entry of an unfinished job and owns it. */
  ghost predicate Holds(s: Settings, x: System, w: Worker, e: EntryId, j: JobId) {
    && SystemInv(s, x) && Handed(x, w, e) && Owns(x.q.g, w, e)
    && e in x.q.g.stream && x.q.g.stream[e].id == j && j !in x.q.v.done
  }

  lemma FetchNext(s: Settings, x: System, w: Worker, now: int, e: EntryId) returns (a: Action, y: System)
    requires GroupOk(x.q.g) && e in x.q.g.stream && x.q.g.delivered <= e
    ensures Next(s, x, a, y) && IsByAt(w, now, a)
    ensures y.written == x.written && y.q.g.stream == x.q.g.stream && y.q.v == x.q.v && x.holders <= y.holders
    ensures (w, e) in y.holders && Owns(y.q.g, w, e)
  {
    var count := e - x.q.g.delivered + 1;
    a := DoFetch(w, count, now);
    FetchReaches(Register(x.q.g, w, now), w, count, now, e);
    var z := Observe(x, Fetch(x.q, w, count, now));
    y := z.(holders := x.holders + Fetched(x.q.g, z.q.g, w));
  }

  lemma FetchIt(s: Settings, x: System, w: Worker, now: int, e: EntryId, j: JobId) returns (a: Action, y: System)
    requires SystemInv(s, x) && e in x.q.g.stream && x.q.g.stream[e].id == j && j !in x.q.v.done
    requires x.q.g.delivered <= e
    ensures Next(s, x, a, y) && IsByAt(w, now, a) && Holds(s, y, w, e, j)
  {
    a, y := FetchNext(s, x, w, now, e);
    StepKeeps(s, x, a, y);
  }

  /** A pass over one expired entry by a caller with a free suspect slot keeps it. */
  lemma ReclaimsIt(s: Settings, g: Group, w: Worker, e: EntryId, now: int)
    requires e in g.pel
    ensures var p := ReclaimPass(s, g, w, [e], {}, 1, now);
            p.pel == g.pel[e := Lease(w, now, g.pel[e].deliveries + 1)] && p.kept == [e]
  {
    assert g.pel - {} == g.pel;
    var p := Pass(g.pel, 1, []);
    assert ClaimAll(s, p, w, [e], now) == ClaimOne(s, p, w, e, now) by {
      assert [e][0] == e && [e][1..] == [];
    }
  }

  lemma ReclaimNext(s: Settings, x: System, w: Worker, e: EntryId, now: int) returns (a: Action, y: System)
    requires GroupOk(x.q.g) && e in x.q.g.pel && now - x.q.g.pel[e].since >= s.lease
    ensures Next(s, x, a, y) && IsByAt(w, now, a)
    ensures y.written == x.written && y.q.g.stream == x.q.g.stream && y.q.v == x.q.v && x.holders <= y.holders
    ensures (w, e) in y.holders && Owns(y.q.g, w, e) && y.q.g.pel[e].since == now && TimeOf(a) == Some(now)
  {
    a := DoReclaim(w, 1, [e], {}, 1, now);
    var p := ReclaimPass(s, x.q.g, w, [e], {}, 1, now);
    y := Observe(x, Reclaim(s, x.q, w, [e], {}, 1, now)).(holders := x.holders + Taken(p, w));
    ReclaimsIt(s, x.q.g, w, e, now);
    assert e in p.kept;
  }

  lemma ReclaimIt(s: Settings, x: System, w: Worker, now: int, e: EntryId, j: JobId) returns (a: Action, y: System)
    requires SystemInv(s, x) && e in x.q.g.stream && x.q.g.stream[e].id == j && j !in x.q.v.done
    requires e < x.q.g.delivered && AllDue(s, x.q, now)
    ensures Next(s, x, a, y) && IsByAt(w, now, a) && Holds(s, y, w, e, j)
  {
    a, y := ReclaimNext(s, x, w, e, now);
    StepKeeps(s, x, a, y);
  }

  // ---------------------------------------------------------------- from the worker to a terminal state

  lemma EffectIt(s: Settings, x: System, w: Worker, now: int, e: EntryId, j: JobId) returns (a: Action, y: System)
    requires Holds(s, x, w, e, j) && s.HasEffect(x.written[e].jobType)
    ensures Next(s, x, a, y) && IsByAt(w, now, a) && Holds(s, y, w, e, j) && EffectDone(s, y.q.ledger, y.written[e])
  {
    a := DoEffect(w, e);
    var key := s.KeyOf(x.written[e].jobType, x.written[e].id);
    y := Observe(x, Apply(x.q, key));
    StepKeeps(s, x, a, y);
    if key in x.q.ledger.marks {} else {}
  }

  lemma CommitIt(s: Settings, x: System, w: Worker, now: int, e: EntryId, j: JobId) returns (a: Action, y: System)
    requires Handed(x, w, e) && x.written[e].id == j && EffectDone(s, x.q.ledger, x.written[e])
    ensures Next(s, x, a, y) && IsByAt(w, now, a) && y.q.v.HasSucceeded(j)
  {
    a := DoCommit(w, e, "", now);
    y := Observe(x, Commit(x.q, w, e, j, "", now));
    if x.q.v.HasSucceeded(j) {} else {}
  }

  lemma BuryIt(s: Settings, x: System, w: Worker, now: int, e: EntryId, j: JobId) returns (a: Action, y: System)
    requires Handed(x, w, e) && x.written[e].id == j && Owns(x.q.g, w, e) && j !in x.q.v.done
    ensures Next(s, x, a, y) && IsByAt(w, now, a) && y.q.v.IsDead(j)
  {
    a := DoDead(w, e, MaxDeliveries, "", 0, false, now);
    y := Observe(x, DeadLetter(x.q, w, e, j, MaxDeliveries, "", 0, false, now));
  }

  /** The worker runs what it holds, or dead-letters it unrun past max_deliveries. */
  lemma FinishIt(s: Settings, x: System, w: Worker, now: int, e: EntryId, j: JobId)
    returns (y: System, states: seq<System>, acts: seq<Action>)
    requires Holds(s, x, w, e, j)
    ensures Leads(s, w, now, x, y, states, acts) && j in y.q.v.done
  {
    var a: Action;
    if x.q.g.pel[e].deliveries > s.maxDeliveries {
      a, y := BuryIt(s, x, w, now, e, j);
      states, acts := [x, y], [a];
      OneStep(s, w, now, x, a, y);
    } else if s.HasEffect(x.written[e].jobType) {
      var b, z := EffectIt(s, x, w, now, e, j);
      OneStep(s, w, now, x, b, z);
      a, y := CommitIt(s, z, w, now, e, j);
      OneStep(s, w, now, z, a, y);
      Then(s, w, now, x, z, y, [x, z], [b], [z, y], [a]);
      states, acts := [x, z] + [z, y][1..], [b] + [a];
    } else {
      a, y := CommitIt(s, x, w, now, e, j);
      states, acts := [x, y], [a];
      OneStep(s, w, now, x, a, y);
    }
  }

  /** A copy in the stream, undelivered or pending under anyone, can be run to the end by `w`. */
  lemma FromStream(s: Settings, x: System, w: Worker, now: int, e: EntryId, j: JobId)
    returns (y: System, states: seq<System>, acts: seq<Action>)
    requires SystemInv(s, x) && AllDue(s, x.q, now) && e in x.q.g.stream && x.q.g.stream[e].id == j && j !in x.q.v.done
    ensures Leads(s, w, now, x, y, states, acts) && j in y.q.v.done
  {
    var a: Action, z: System;
    if x.q.g.delivered <= e {
      a, z := FetchIt(s, x, w, now, e, j);
    } else {
      a, z := ReclaimIt(s, x, w, now, e, j);
    }
    OneStep(s, w, now, x, a, z);
    y, states, acts := FinishIt(s, z, w, now, e, j);
    Then(s, w, now, x, z, y, [x, z], [a], states, acts);
    states, acts := [x, z] + states[1..], [a] + acts;
  }

  lemma {:induction false} Latest(delayed: map<Job, int>) returns (now: int)
    ensures forall m :: m in delayed ==> delayed[m] <= now
    decreases |delayed|
  {
    if delayed == map[] {
      now := 0;
    } else {
      var m :| m in delayed;
      now := Latest(delayed - {m});
      assert forall d :: d in delayed ==> d == m || d in delayed - {m};
      now := if now < delayed[m] then delayed[m] else now;
    }
  }

  lemma {:induction false} ScheduleMoves(q: Queue, due: seq<Job>)
    requires GroupOk(q.g) && forall m :: m in due ==> m in q.delayed
    requires forall i, k :: 0 <= i < k < |due| ==> due[i] != due[k]
    ensures var r := Schedule(q, due);
            && (forall m :: m in due ==> InStream(r.g.stream, m.id))
            && r.delayed == (map m | m in q.delayed && m !in due :: q.delayed[m])
            && |r.delayed| == |q.delayed| - |due| && (forall j :: InStream(q.g.stream, j) ==> InStream(r.g.stream, j))
    decreases |due|
  {
    if due != [] {
      var q1 := MoveOne(q, due[0]);
      AppendKeeps(q.g, due[0]);
      forall j | InStream(q.g.stream, j) || j == due[0].id ensures InStream(q1.g.stream, j) {
        AppendAccounts(q.g, due[0], j);
      }
      ScheduleMoves(q1, due[1..]);
    }
  }

  lemma ScheduleStep(s: Settings, x: System, w: Worker, now: int, m: Job) returns (a: Action, y: System)
    requires s.Valid() && GroupOk(x.q.g) && m in x.q.delayed && AllDue(s, x.q, now)
    ensures Next(s, x, a, y) && IsByAt(w, now, a) && AllDue(s, y.q, now) && y.q.v == x.q.v
    ensures |y.q.delayed| < |x.q.delayed| && (InStream(y.q.g.stream, m.id) || m in y.q.delayed)
  {
    var due := DueRangeExists(x.q.delayed, now, s.batch);
    a := DoSchedule(w, due, now);
    y := Observe(x, Schedule(x.q, due)).(written := x.written + due);
    ScheduleMoves(x.q, due);
    ScheduleFrame(x.q, due);
  }

  lemma ScheduleNext(s: Settings, x: System, w: Worker, now: int, m: Job) returns (a: Action, y: System)
    requires s.Valid() && SystemInv(s, x) && m in x.q.delayed && AllDue(s, x.q, now)
    ensures Next(s, x, a, y) && IsByAt(w, now, a) && SystemInv(s, y) && AllDue(s, y.q, now) && y.q.v == x.q.v
    ensures |y.q.delayed| < |x.q.delayed| && (InStream(y.q.g.stream, m.id) || m in y.q.delayed)
  {
    a, y := ScheduleStep(s, x, w, now, m);
    StepKeeps(s, x, a, y);
  }

  /** A delayed copy is moved to the stream, batch after batch, and then run to the end. */
  lemma {:induction false} FromDelayed(s: Settings, x: System, w: Worker, now: int, m: Job)
    returns (y: System, states: seq<System>, acts: seq<Action>)
    requires s.Valid() && SystemInv(s, x) && AllDue(s, x.q, now) && m in x.q.delayed && m.id !in x.q.v.done
    ensures Leads(s, w, now, x, y, states, acts) && m.id in y.q.v.done
    decreases |x.q.delayed|
  {
    var a, z := ScheduleNext(s, x, w, now, m);
    OneStep(s, w, now, x, a, z);
    if m in z.q.delayed {
      y, states, acts := FromDelayed(s, z, w, now, m);
    } else {
      var e :| e in z.q.g.stream && z.q.g.stream[e].id == m.id;
      y, states, acts := FromStream(s, z, w, now, e, m.id);
    }
    Then(s, w, now, x, z, y, [x, z], [a], states, acts);
    states, acts := [x, z] + states[1..], [a] + acts;
  }

  lemma {:induction false} LatestLease(pel: map<EntryId, Lease>, lease: nat) returns (now: int)
    ensures forall e :: e in pel ==> lease <= now - pel[e].since
    decreases |pel|
  {
    if pel == map[] {
      now := 0;
    } else {
      var e :| e in pel;
      now := LatestLease(pel - {e}, lease);
      assert forall k :: k in pel ==> k == e || k in pel - {e};
      now := if now < pel[e].since + lease then pel[e].since + lease else now;
    }
  }

  /** Whatever the time, one comes at which every lease has run out and every retry is due. */
  lemma SomeTime(s: Settings, q: Queue, t: int) returns (now: int)
    ensures t <= now && AllDue(s, q, now)
  {
    var a := LatestLease(q.g.pel, s.lease);
    var b := Latest(q.delayed);
    now := if a < b then b else a;
    now := if now < t then t else now;
  }

  /** From any state with the invariant, any one worker can finish any accepted job. */
  lemma OneWorkerFinishes(s: Settings, x: System, w: Worker, j: JobId, t: int)
    returns (now: int, y: System, states: seq<System>, acts: seq<Action>)
    requires s.Valid() && SystemInv(s, x) && j in x.accepted
    ensures t <= now && Leads(s, w, now, x, y, states, acts) && j in y.q.v.done
  {
    now := SomeTime(s, x.q, t);
    assert Accounted(x.q, j);
    if j in x.q.v.done {
      y, states, acts := x, [x], [];
      NoSteps(s, w, now, x);
    } else if InStream(x.q.g.stream, j) {
      var e :| e in x.q.g.stream && x.q.g.stream[e].id == j;
      y, states, acts := FromStream(s, x, w, now, e, j);
    } else {
      var m :| m in x.q.delayed && m.id == j;
      y, states, acts := FromDelayed(s, x, w, now, m);
    }
  }

  /** Never stuck: at every state of every run, whatever was lost, crashed or re-sent before, and
      whatever time `t` it is, steps of a single worker, taken at times that are not before `t` and
      never go back, lead on to a terminal state of any accepted job. */
  lemma AlwaysCompletable(s: Settings, states: seq<System>, acts: seq<Action>, i: nat, w: Worker, j: JobId, t: int)
    returns (y: System, more: seq<System>, steps: seq<Action>)
    requires s.Valid() && IsRun(s, states, acts) && i < |states| && j in states[i].accepted
    ensures IsStretch(s, more, steps) && more[0] == states[i] && more[|steps|] == y && j in y.q.v.done
    ensures Clocked(steps, t) && forall k :: 0 <= k < |steps| ==> IsBy(w, steps[k])
  {
    AlwaysInv(s, states, acts, i);
    var now;
    now, y, more, steps := OneWorkerFinishes(s, states[i], w, j, t);
  }
}
