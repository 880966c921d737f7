/** How long copies of a job can keep being delivered (`Settings.lifetime_bound`), and why an accepted
    TTL outlasts them. Time spent waiting undelivered is not covered, as the setting's own
    documentation says. */
module Lifetime {

  const TTL_MARGIN := 10.0

  datatype Timing = Timing(timeout: real, lease: real, cap: real, maxDeliveries: nat, maxAttempts: nat)
  {
    predicate Valid() {
      0.0 < timeout && 0.0 < lease && 0.0 <= cap && 1 <= maxDeliveries && 1 <= maxAttempts
    }

    function PerDelivery(): real {
      timeout + lease
    }

    function PerAttempt(): real {
      maxDeliveries as real * PerDelivery() + cap
    }

    function Bound(): real {
      maxAttempts as real * PerAttempt()
    }

    /** `check_ttl_covers`: whether a TTL is accepted (0 means no expiry). */
    predicate TtlAccepted(ttl: real) {
      ttl == 0.0 || TTL_MARGIN * Bound() <= ttl
    }
  }

  /** The `count`-th delivery of an attempt, from when it is handed out to when it is over: its run
      ended or timed out, or, its worker having died, its lease ran out. */
  datatype Delivery = Delivery(attempt: nat, count: nat, start: real, end: real)

  predicate Fits(k: Timing, d: Delivery) {
    && d.attempt < k.maxAttempts && 1 <= d.count <= k.maxDeliveries
    && d.start <= d.end <= d.start + k.PerDelivery()
  }

  /** The next delivery of the same copy: reclaimed at once, or a retry after its backoff. */
  predicate Follows(k: Timing, d: Delivery, e: Delivery) {
    || (e.attempt == d.attempt && e.count == d.count + 1 && e.start == d.end)
    || (e.attempt == d.attempt + 1 && e.count == 1 && d.end <= e.start <= d.end + k.cap)
  }

  /** The life of one copy, enqueued at time 0. */
  ghost predicate IsLife(k: Timing, life: seq<Delivery>) {
    && life != [] && life[0].attempt == 0 && life[0].count == 1 && life[0].start == 0.0
    && (forall i :: 0 <= i < |life| ==> Fits(k, life[i]))
    && forall i, m :: 0 <= i && i + 1 == m < |life| ==> Follows(k, life[i], life[m])
  }

  /** The time by which a delivery must be over. */
  function DueBy(k: Timing, attempt: nat, count: nat): real {
    attempt as real * k.PerAttempt() + count as real * k.PerDelivery()
  }

  lemma DueByNext(k: Timing, attempt: nat, count: nat)
    ensures DueBy(k, attempt, count + 1) == DueBy(k, attempt, count) + k.PerDelivery()
    ensures DueBy(k, attempt + 1, 1) == DueBy(k, attempt, k.maxDeliveries) + k.cap + k.PerDelivery()
  {
    var per, each := k.PerAttempt(), k.PerDelivery();
    assert (attempt + 1) as real * per == attempt as real * per + per;
    assert (count + 1) as real * each == count as real * each + each;
  }

  lemma DueByGrows(k: Timing, attempt: nat, count: nat, most: nat)
    requires k.Valid() && count <= most
    ensures DueBy(k, attempt, count) <= DueBy(k, attempt, most)
    decreases most - count
  {
    if count < most {
      DueByNext(k, attempt, count);
      DueByGrows(k, attempt, count + 1, most);
    }
  }

  lemma FirstDue(k: Timing)
    ensures DueBy(k, 0, 1) == k.PerDelivery()
  {
  }

  lemma LastDue(k: Timing)
    requires k.Valid()
    ensures DueBy(k, k.maxAttempts - 1, k.maxDeliveries) == k.Bound() - k.cap
  {
    var a := k.maxAttempts - 1;
    assert k.maxAttempts as real * k.PerAttempt() == a as real * k.PerAttempt() + k.PerAttempt();
  }

  lemma StepDue(k: Timing, d: Delivery, e: Delivery)
    requires k.Valid() && Fits(k, d) && Fits(k, e) && Follows(k, d, e) && d.end <= DueBy(k, d.attempt, d.count)
    ensures e.end <= DueBy(k, e.attempt, e.count)
  {
    DueByNext(k, d.attempt, d.count);
    DueByGrows(k, d.attempt, d.count, k.maxDeliveries);
  }

  lemma {:induction false} EachIsDue(k: Timing, life: seq<Delivery>, i: nat)
    requires k.Valid() && IsLife(k, life) && i < |life|
    ensures 0.0 <= life[i].start && life[i].end <= DueBy(k, life[i].attempt, life[i].count)
    decreases i
  {
    if i == 0 {
      FirstDue(k);
    } else {
      EachIsDue(k, life, i - 1);
      assert Follows(k, life[i - 1], life[i]);
      StepDue(k, life[i - 1], life[i]);
    }
  }

  lemma {:induction false} AttemptsDue(k: Timing, attempt: nat)
    requires k.Valid() && attempt < k.maxAttempts
    ensures DueBy(k, attempt, k.maxDeliveries) <= k.Bound() - k.cap
    decreases k.maxAttempts - attempt
  {
    if attempt + 1 == k.maxAttempts {
      LastDue(k);
    } else {
      AttemptsDue(k, attempt + 1);
      DueByNext(k, attempt, k.maxDeliveries);
      DueByGrows(k, attempt + 1, 1, k.maxDeliveries);
    }
  }

  /** Every delivery of a copy is over by `lifetime_bound`. */
  lemma EndsInTime(k: Timing, life: seq<Delivery>, i: nat)
    requires k.Valid() && IsLife(k, life) && i < |life|
    ensures life[i].end <= k.Bound() - k.cap <= k.Bound()
  {
    EachIsDue(k, life, i);
    assert Fits(k, life[i]);
    DueByGrows(k, life[i].attempt, life[i].count, k.maxDeliveries);
    AttemptsDue(k, life[i].attempt);
  }

  /** So a `done` or ledger key with an accepted TTL, written by any delivery of one copy, is still
      there at the end of any delivery of any other copy enqueued by then. */
  lemma AcceptedTtlCovers(k: Timing, ttl: real, life: seq<Delivery>, i: nat, written: real, other: seq<Delivery>, m: nat, enqueued: real)
    requires k.Valid() && k.TtlAccepted(ttl) && ttl != 0.0
    requires IsLife(k, life) && i < |life| && life[i].start <= written <= life[i].end
    requires IsLife(k, other) && m < |other| && enqueued <= written
    ensures enqueued + other[m].end < written + ttl
  {
    EndsInTime(k, other, m);
    BoundIsPositive(k);
  }

  lemma BoundIsPositive(k: Timing)
    requires k.Valid()
    ensures 0.0 < k.Bound() < TTL_MARGIN * k.Bound()
  {
    AttemptsDue(k, 0);
    DueByGrows(k, 0, 1, k.maxDeliveries);
    FirstDue(k);
  }

  // ---------------------------------------------------------------- the bound is the worst case

  /** The slowest life up to a given delivery. */
  function Slowest(k: Timing, attempt: nat, count: nat): seq<Delivery>
    decreases attempt, count
  {
    var last := SlowestLast(k, attempt, count);
    if count > 1 then Slowest(k, attempt, count - 1) + [last]
    else if attempt > 0 then Slowest(k, attempt - 1, k.maxDeliveries) + [last]
    else [last]
  }

  function SlowestLast(k: Timing, attempt: nat, count: nat): Delivery {
    Delivery(attempt, count, DueBy(k, attempt, count) - k.PerDelivery(), DueBy(k, attempt, count))
  }

  lemma LongerLife(k: Timing, life: seq<Delivery>, d: Delivery)
    requires IsLife(k, life) && Fits(k, d) && Follows(k, life[|life| - 1], d)
    ensures IsLife(k, life + [d])
  {
  }

  lemma SlowestFollows(k: Timing, attempt: nat, count: nat)
    requires k.Valid()
    ensures Follows(k, SlowestLast(k, attempt, count), SlowestLast(k, attempt, count + 1))
    ensures Follows(k, SlowestLast(k, attempt, k.maxDeliveries), SlowestLast(k, attempt + 1, 1))
  {
    DueByNext(k, attempt, count);
  }

  lemma {:induction false} SlowestIsLife(k: Timing, attempt: nat, count: nat)
    requires k.Valid() && attempt < k.maxAttempts && 1 <= count <= k.maxDeliveries
    ensures IsLife(k, Slowest(k, attempt, count))
    ensures var s := Slowest(k, attempt, count); s[|s| - 1] == SlowestLast(k, attempt, count)
    decreases attempt, count
  {
    if count > 1 {
      SlowestIsLife(k, attempt, count - 1);
      SlowestFollows(k, attempt, count - 1);
      LongerLife(k, Slowest(k, attempt, count - 1), SlowestLast(k, attempt, count));
    } else if attempt > 0 {
      SlowestIsLife(k, attempt - 1, k.maxDeliveries);
      SlowestFollows(k, attempt - 1, 0);
      LongerLife(k, Slowest(k, attempt - 1, k.maxDeliveries), SlowestLast(k, attempt, 1));
    } else {
      FirstDue(k);
    }
  }

  /** The bound is the worst case, but for the one backoff that no retry follows. */
  lemma BoundIsReached(k: Timing)
    requires k.Valid()
    ensures exists life: seq<Delivery> :: IsLife(k, life) && life[|life| - 1].end == k.Bound() - k.cap
  {
    SlowestIsLife(k, k.maxAttempts - 1, k.maxDeliveries);
    LastDue(k);
    var life := Slowest(k, k.maxAttempts - 1, k.maxDeliveries);
    assert life[|life| - 1].end == k.Bound() - k.cap;
  }
}
