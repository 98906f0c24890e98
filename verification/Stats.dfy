/** Dashboard statistics: hourly bucketing and the risk distribution. */
module Stats {
  import opened Lists
  import opened Intel
  import opened Store

  // ------------------------------------------------------------ hourly counts

  /** The start of the hour an instant lies in. */
  function HourOf(t: Instant): Instant { t - t % HOUR }

  class Entry {
    const slot: Instant
    var count: nat

    constructor (slot: Instant)
      ensures this.slot == slot && count == 0
    {
      this.slot := slot;
      count := 0;
    }
  }

  function Window(hours: int): int { Max(1, Min(hours, 168)) }

  /** The i-th slot of the chart drawn at `now`. */
  function Slot(now: Instant, hours: int, i: int): Instant { HourOf(now) - (Window(hours) - 1 - i) * HOUR }

  /** The pre-filtered timestamps. */
  function TimestampsSince(attacks: seq<Attack>, since: Instant): seq<Instant> {
    if attacks == [] then []
    else
      var a := attacks[|attacks| - 1];
      TimestampsSince(attacks[..|attacks| - 1], since) + (if a.timestamp >= since then [a.timestamp] else [])
  }

  function InHour(ts: seq<Instant>, slot: Instant): nat { Count((t: Instant) => HourOf(t) == slot, ts) }

  /** What the chart shows for slot i. */
  function Shown(attacks: seq<Attack>, hours: int, now: Instant, later: Instant, i: int): nat {
    InHour(TimestampsSince(attacks, later - Window(hours) * HOUR), Slot(now, hours, i))
  }

  lemma OneMoreTimestamp(ts: seq<Instant>, k: nat, slot: Instant)
    requires k < |ts|
    ensures InHour(ts[..k + 1], slot) == InHour(ts[..k], slot) + (if HourOf(ts[k]) == slot then 1 else 0)
  {
    assert ts[..k + 1][..k] == ts[..k];
  }

  /** The chart: `now` is the clock read for the axis, `later` the one for the pre-filter. */
  method AttacksPerHour(attacks: seq<Attack>, hours: int, now: Instant, later: Instant) returns (buckets: seq<Entry>)
    ensures |buckets| == Window(hours)
    ensures forall i :: 0 <= i < |buckets| ==> buckets[i].slot == Slot(now, hours, i)
    ensures forall i :: 0 <= i < |buckets| ==>
      buckets[i].count == Shown(attacks, hours, now, later, i)
  {
    var n := Window(hours);
    var base := HourOf(now);
    var index: map<Instant, Entry>;
    buckets, index := Axis(n, base);
    var ts := TimestampsSince(attacks, later - n * HOUR);
    for k := 0 to |ts|
      invariant Indexed(buckets, index, n, base)
      invariant forall i :: 0 <= i < n ==> fresh(buckets[i])
      invariant forall i :: 0 <= i < n ==> buckets[i].count == InHour(ts[..k], buckets[i].slot)
    {
      forall i | 0 <= i < n
        ensures InHour(ts[..k + 1], buckets[i].slot)
             == InHour(ts[..k], buckets[i].slot) + (if HourOf(ts[k]) == buckets[i].slot then 1 else 0)
      {
        OneMoreTimestamp(ts, k, buckets[i].slot);
      }
      CountIn(buckets, index, n, base, HourOf(ts[k]));
    }
    assert ts[..|ts|] == ts;
  }

  /** One timestamp: the entry of its hour, if it is on the chart, counts one more. */
  method CountIn(buckets: seq<Entry>, index: map<Instant, Entry>, ghost n: int, ghost base: Instant, slot: Instant)
    requires Indexed(buckets, index, n, base)
    modifies buckets
    ensures Indexed(buckets, index, n, base)
    ensures forall i :: 0 <= i < n ==>
      buckets[i].count == old(buckets[i].count) + (if slot == buckets[i].slot then 1 else 0)
  {
    if slot in index {
      var entry := index[slot];
      entry.count := entry.count + 1;
    }
  }

  /** The list and the index share their entries. */
  ghost predicate Indexed(buckets: seq<Entry>, index: map<Instant, Entry>, n: int, base: Instant)
    reads buckets
  {
    |buckets| == n &&
    (forall i :: 0 <= i < n ==>
      buckets[i].slot == base - (n - 1 - i) * HOUR &&
      buckets[i].slot in index && index[buckets[i].slot] == buckets[i]) &&
    (forall s :: s in index ==> index[s] in buckets && index[s].slot == s) &&
    (forall i, j :: 0 <= i < j < n ==> buckets[i] != buckets[j])
  }

  method Axis(n: nat, base: Instant) returns (buckets: seq<Entry>, index: map<Instant, Entry>)
    ensures Indexed(buckets, index, n, base)
    ensures forall i :: 0 <= i < n ==> fresh(buckets[i]) && buckets[i].count == 0
  {
    buckets, index := [], map[];
    var i: int := n - 1;
    while i >= 0
      invariant -1 <= i < n && |buckets| == n - 1 - i
      invariant forall k :: 0 <= k < |buckets| ==>
        fresh(buckets[k]) && buckets[k].count == 0 && buckets[k].slot == base - (n - 1 - k) * HOUR &&
        buckets[k].slot in index && index[buckets[k].slot] == buckets[k]
      invariant forall s :: s in index ==> index[s] in buckets && index[s].slot == s
      invariant forall k, l :: 0 <= k < l < |buckets| ==> buckets[k] != buckets[l]
    {
      var entry := new Entry(base - i * HOUR);
      buckets := buckets + [entry];
      index := index[entry.slot := entry];
      i := i - 1;
    }
  }

  /** The stored attacks whose timestamp falls in the hour starting at `slot`. */
  function StoredInHour(attacks: seq<Attack>, slot: Instant): nat {
    Count((a: Attack) => slot <= a.timestamp < slot + HOUR, attacks)
  }

  /** A filtered-then-indexed bucket counts the attacks of that hour that pass the filter. */
  lemma {:induction false} BucketCounts(attacks: seq<Attack>, since: Instant, slot: Instant)
    requires slot % HOUR == 0
    ensures InHour(TimestampsSince(attacks, since), slot)
         == Count((a: Attack) => a.timestamp >= since && slot <= a.timestamp < slot + HOUR, attacks)
  {
    if attacks != [] {
      var a, n := attacks[|attacks| - 1], |attacks| - 1;
      BucketCounts(attacks[..n], since, slot);
      HourMeans(a.timestamp, slot);
      var ts := TimestampsSince(attacks[..n], since);
      assert (ts + [a.timestamp])[..|ts|] == ts;
      assert ts + [] == ts;
    }
  }

  lemma HourMeans(t: Instant, slot: Instant)
    requires slot % HOUR == 0
    ensures HourOf(t) == slot <==> slot <= t < slot + HOUR
    ensures HourOf(t) % HOUR == 0 && HourOf(t) <= t < HourOf(t) + HOUR
  {
  }

  lemma SlotIsHour(now: Instant, hours: int, i: int)
    ensures Slot(now, hours, i) % HOUR == 0
  {
    var k := Window(hours) - 1 - i;
    assert (HourOf(now) - k * HOUR) % HOUR == 0 by {
      var q := now / HOUR;
      assert HourOf(now) == q * HOUR;
      assert HourOf(now) - k * HOUR == (q - k) * HOUR;
    }
  }

  /** The chart has between 1 and 168 slots, as many as asked for within these bounds. */
  lemma WindowMeans(hours: int)
    ensures 1 <= Window(hours) <= 168
    ensures 1 <= hours <= 168 ==> Window(hours) == hours
    ensures hours < 1 ==> Window(hours) == 1
    ensures hours > 168 ==> Window(hours) == 168
  {
  }

  /** The slots are whole hours, one after the other, and the last one contains `now`. */
  lemma SlotsMean(now: Instant, hours: int, i: int)
    ensures Slot(now, hours, i) % 3_600_000_000 == 0
    ensures Slot(now, hours, i + 1) == Slot(now, hours, i) + 3_600_000_000
    ensures Slot(now, hours, Window(hours) - 1) <= now < Slot(now, hours, Window(hours) - 1) + 3_600_000_000
  {
    SlotIsHour(now, hours, i);
    HourMeans(now, HourOf(now));
  }

  /** When the second clock read is not past the end of the axis, every bucket is the plain
      count of all stored attacks of its hour: the pre-filter drops nothing that is shown. */
  lemma HourlyIsPlainCount(attacks: seq<Attack>, hours: int, now: Instant, later: Instant, i: int)
    requires later <= HourOf(now) + HOUR && 0 <= i < Window(hours)
    ensures Shown(attacks, hours, now, later, i) == StoredInHour(attacks, Slot(now, hours, i))
  {
    var slot, since := Slot(now, hours, i), later - Window(hours) * HOUR;
    SlotIsHour(now, hours, i);
    BucketCounts(attacks, since, slot);
    CountCong((a: Attack) => a.timestamp >= since && slot <= a.timestamp < slot + HOUR,
              (a: Attack) => slot <= a.timestamp < slot + HOUR, attacks);
  }

  ghost predicate ChartIsExact(hours: int, now: Instant, later: Instant) {
    forall attacks: seq<Attack>, i :: 0 <= i < Window(hours) ==>
      Shown(attacks, hours, now, later, i) == StoredInHour(attacks, Slot(now, hours, i))
  }

  /** The chart is right for every table exactly when the clock did not pass the end of the
      current hour between the two reads. */
  lemma ChartIsExactIff(hours: int, now: Instant, later: Instant, sample: Attack)
    ensures ChartIsExact(hours, now, later) <==> later <= HourOf(now) + HOUR
  {
    if later <= HourOf(now) + HOUR {
      forall attacks: seq<Attack>, i | 0 <= i < Window(hours)
        ensures Shown(attacks, hours, now, later, i) == StoredInHour(attacks, Slot(now, hours, i))
      {
        HourlyIsPlainCount(attacks, hours, now, later, i);
      }
    } else {
      var slot, since := Slot(now, hours, 0), later - Window(hours) * HOUR;
      var one := [sample.(timestamp := slot)];
      SlotIsHour(now, hours, 0);
      BucketCounts(one, since, slot);
      assert one[..0] == [];
      assert Shown(one, hours, now, later, 0) != StoredInHour(one, slot);
    }
  }

  /** The sum of the first `k` buckets. */
  function ShownTotal(attacks: seq<Attack>, hours: int, now: Instant, later: Instant, k: nat): nat {
    if k == 0 then 0
    else ShownTotal(attacks, hours, now, later, k - 1) + Shown(attacks, hours, now, later, k - 1)
  }

  lemma {:induction false} SplitRange(attacks: seq<Attack>, from: Instant, mid: Instant, to: Instant)
    requires from <= mid <= to
    ensures Count((a: Attack) => from <= a.timestamp < to, attacks)
         == Count((a: Attack) => from <= a.timestamp < mid, attacks) +
            Count((a: Attack) => mid <= a.timestamp < to, attacks)
  {
    if attacks != [] { SplitRange(attacks[..|attacks| - 1], from, mid, to); }
  }

  /** The buckets are consecutive hours ending now, and together count the attacks of the
      displayed window. */
  lemma {:induction false} HourlyTotals(attacks: seq<Attack>, hours: int, now: Instant, later: Instant, k: nat)
    requires later <= HourOf(now) + HOUR && k <= Window(hours)
    ensures ShownTotal(attacks, hours, now, later, k)
         == Count((a: Attack) => Slot(now, hours, 0) <= a.timestamp < Slot(now, hours, k), attacks)
    ensures Slot(now, hours, Window(hours)) == HourOf(now) + HOUR
  {
    if k == 0 {
      EmptyRange(attacks, Slot(now, hours, 0));
    } else {
      HourlyTotals(attacks, hours, now, later, k - 1);
      HourlyIsPlainCount(attacks, hours, now, later, k - 1);
      SplitRange(attacks, Slot(now, hours, 0), Slot(now, hours, k - 1), Slot(now, hours, k));
      CountCong((a: Attack) => Slot(now, hours, k - 1) <= a.timestamp < Slot(now, hours, k - 1) + HOUR,
                (a: Attack) => Slot(now, hours, k - 1) <= a.timestamp < Slot(now, hours, k), attacks);
    }
  }

  lemma {:induction false} EmptyRange(attacks: seq<Attack>, at: Instant)
    ensures Count((a: Attack) => at <= a.timestamp < at, attacks) == 0
  {
    if attacks != [] { EmptyRange(attacks[..|attacks| - 1], at); }
  }

  // --------------------------------------------------------- risk distribution

  /** The histogram buckets, bounds inclusive. */
  const BUCKETS: seq<(int, int)> := [(0, 10), (11, 20), (21, 30), (31, 40), (41, 50),
                                     (51, 60), (61, 70), (71, 80), (81, 90), (91, 100)]

  function InBand(attacks: seq<Attack>, lo: int, hi: int): nat {
    Count((a: Attack) => lo <= a.riskScore <= hi, attacks)
  }

  function OfLevel(attacks: seq<Attack>, level: Level): nat {
    Count((a: Attack) => a.riskLevel == level, attacks)
  }

  /** Group by level: the count of each level that occurs. */
  method RiskLevelCounts(attacks: seq<Attack>) returns (counts: map<Level, nat>)
    ensures forall l :: l in counts ==> counts[l] == OfLevel(attacks, l)
    ensures forall l :: l !in counts ==> OfLevel(attacks, l) == 0
  {
    counts := map[];
    for i := 0 to |attacks|
      invariant forall l :: l in counts ==> counts[l] == OfLevel(attacks[..i], l)
      invariant forall l :: l !in counts ==> OfLevel(attacks[..i], l) == 0
    {
      assert attacks[..i + 1][..i] == attacks[..i];
      var l := attacks[i].riskLevel;
      counts := counts[l := (if l in counts then counts[l] else 0) + 1];
    }
    assert attacks[..|attacks|] == attacks;
  }

  method RiskDistribution(attacks: seq<Attack>) returns (byLevel: seq<nat>, byBucket: seq<nat>)
    ensures byLevel == [OfLevel(attacks, Low), OfLevel(attacks, Medium), OfLevel(attacks, High)]
    ensures |byBucket| == |BUCKETS|
    ensures forall i :: 0 <= i < |BUCKETS| ==> byBucket[i] == InBand(attacks, BUCKETS[i].0, BUCKETS[i].1)
  {
    var counts := RiskLevelCounts(attacks);
    byLevel := [];
    var levels := [Low, Medium, High];
    for i := 0 to |levels|
      invariant |byLevel| == i && forall k :: 0 <= k < i ==> byLevel[k] == OfLevel(attacks, levels[k])
    {
      byLevel := byLevel + [if levels[i] in counts then counts[levels[i]] else 0];
    }
    byBucket := [];
    var bounds := BUCKETS;
    for i := 0 to |bounds|
      invariant |byBucket| == i && forall k :: 0 <= k < i ==> byBucket[k] == InBand(attacks, bounds[k].0, bounds[k].1)
    {
      var count := 0;
      for j := 0 to |attacks|
        invariant count == InBand(attacks[..j], bounds[i].0, bounds[i].1)
      {
        assert attacks[..j + 1][..j] == attacks[..j];
        if bounds[i].0 <= attacks[j].riskScore <= bounds[i].1 {
          count := count + 1;
        }
      }
      assert attacks[..|attacks|] == attacks;
      byBucket := byBucket + [count];
    }
  }

  /** Adjacent bands add up. */
  lemma {:induction false} BandsJoin(attacks: seq<Attack>, lo: int, mid: int, hi: int)
    requires lo <= mid + 1 && mid <= hi
    ensures InBand(attacks, lo, hi) == InBand(attacks, lo, mid) + InBand(attacks, mid + 1, hi)
  {
    if attacks != [] { BandsJoin(attacks[..|attacks| - 1], lo, mid, hi); }
  }

  ghost predicate InRange(attacks: seq<Attack>) {
    forall i :: 0 <= i < |attacks| ==> 0 <= attacks[i].riskScore <= 100
  }

  lemma {:induction false} AllInBand(attacks: seq<Attack>)
    requires InRange(attacks)
    ensures InBand(attacks, 0, 100) == |attacks|
  {
    if attacks != [] { AllInBand(attacks[..|attacks| - 1]); }
  }

  lemma {:induction false} LevelsPartition(attacks: seq<Attack>)
    ensures OfLevel(attacks, Low) + OfLevel(attacks, Medium) + OfLevel(attacks, High) == |attacks|
  {
    if attacks != [] { LevelsPartition(attacks[..|attacks| - 1]); }
  }

  /** Under the default bands each stored level is that of its score. */
  ghost predicate DefaultBands(attacks: seq<Attack>) {
    forall i :: 0 <= i < |attacks| ==>
      0 <= attacks[i].riskScore <= 100 &&
      attacks[i].riskLevel ==
        if attacks[i].riskScore <= 30 then Low else if attacks[i].riskScore <= 70 then Medium else High
  }

  lemma {:induction false} LevelsAreBands(attacks: seq<Attack>)
    requires DefaultBands(attacks)
    ensures OfLevel(attacks, Low) == InBand(attacks, 0, 30)
    ensures OfLevel(attacks, Medium) == InBand(attacks, 31, 70)
    ensures OfLevel(attacks, High) == InBand(attacks, 71, 100)
  {
    if attacks != [] { LevelsAreBands(attacks[..|attacks| - 1]); }
  }

  function Bounds(k: nat): (int, int)
    requires k < 10
  {
    BucketCount();
    BUCKETS[k]
  }

  lemma BucketCount()
    ensures |BUCKETS| == 10
  {
  }

  lemma BucketBounds(k: nat)
    requires k < 10
    ensures Bounds(k) == (if k == 0 then 0 else 10 * k + 1, 10 * k + 10)
  {
  }

  /** The sum of buckets `i..j` of the histogram. */
  function Histogram(attacks: seq<Attack>, i: nat, j: nat): nat
    requires i <= j <= 10
  {
    if i == j then 0 else Histogram(attacks, i, j - 1) + InBand(attacks, Bounds(j - 1).0, Bounds(j - 1).1)
  }

  /** Consecutive buckets tile their range. */
  lemma {:induction false} BucketsTile(attacks: seq<Attack>, i: nat, j: nat)
    requires i < j <= 10
    ensures Histogram(attacks, i, j) == InBand(attacks, if i == 0 then 0 else 10 * i + 1, 10 * j)
  {
    BucketBounds(i);
    BucketBounds(j - 1);
    if j == i + 1 {
      assert Histogram(attacks, i, i) == 0;
    } else {
      BucketsTile(attacks, i, j - 1);
      BandsJoin(attacks, if i == 0 then 0 else 10 * i + 1, 10 * (j - 1), 10 * j);
    }
  }

  /** Conservation: with scores in 0..100 both distributions count every attack once. */
  lemma {:induction false} DistributionConserves(attacks: seq<Attack>)
    requires InRange(attacks)
    ensures Histogram(attacks, 0, 10) == |attacks|
    ensures OfLevel(attacks, Low) + OfLevel(attacks, Medium) + OfLevel(attacks, High) == |attacks|
  {
    BucketsTile(attacks, 0, 10);
    AllInBand(attacks);
    LevelsPartition(attacks);
  }

  /** Under the default bands low, medium and high are the buckets 0-30, 31-70 and 71-100. */
  lemma LevelsAreBuckets(attacks: seq<Attack>)
    requires DefaultBands(attacks)
    ensures OfLevel(attacks, Low) == Histogram(attacks, 0, 3)
    ensures OfLevel(attacks, Medium) == Histogram(attacks, 3, 7)
    ensures OfLevel(attacks, High) == Histogram(attacks, 7, 10)
  {
    BucketsTile(attacks, 0, 3);
    BucketsTile(attacks, 3, 7);
    BucketsTile(attacks, 7, 10);
    LevelsAreBands(attacks);
  }
}
