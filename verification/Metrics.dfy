/** The hand-written metrics: counters and latency histograms with label folding,
    and the CloudWatch record made from two histogram totals. Latencies are
    whole milliseconds, as the gateway measures them. */
module Metrics {

  const BUCKETS: seq<nat> := [5, 10, 25, 50, 100, 250, 500, 1000, 2500, 5000, 10000, 30000]

  /** Upper bounds that increase and stay below the value that stands for the rest. */
  predicate IsBuckets(b: seq<nat>) {
    b != [] && b[|b| - 1] < OVERFLOW_MS && forall i, j :: 0 <= i < j < |b| ==> b[i] < b[j]
  }

  lemma LatencyBucketsAreBuckets()
    ensures IsBuckets(BUCKETS)
  {
  }

  const OVERFLOW_MS: nat := 60000

  const OVERFLOW: string := "overflow"

  const U64: nat := 0x1_0000_0000_0000_0000

  /** Subtraction of two uint64 values, which wraps. */
  function Sub64(a: nat, b: nat): nat {
    (a - b) % U64
  }

  // ---- Sums over label sets ----

  ghost function Sum<T>(m: map<string, T>, f: T -> nat): nat
    decreases m.Keys
  {
    if m == map[] then 0
    else
      var k :| k in m;
      f(m[k]) + Sum(m - {k}, f)
  }

  lemma {:induction false} SumTakesAnyFirst<T>(m: map<string, T>, f: T -> nat, k: string)
    requires k in m
    ensures Sum(m, f) == f(m[k]) + Sum(m - {k}, f)
    decreases m.Keys
  {
    var first :| first in m && Sum(m, f) == f(m[first]) + Sum(m - {first}, f);
    if first != k {
      SumTakesAnyFirst(m - {first}, f, k);
      SumTakesAnyFirst(m - {k}, f, first);
      assert m - {first} - {k} == m - {k} - {first};
    }
  }

  lemma SumAfterUpdate<T>(m: map<string, T>, f: T -> nat, k: string, v: T)
    ensures Sum(m[k := v], f) + (if k in m then f(m[k]) else 0) == Sum(m, f) + f(v)
  {
    SumTakesAnyFirst(m[k := v], f, k);
    assert m[k := v] - {k} == m - {k};
    if k in m {
      SumTakesAnyFirst(m, f, k);
    } else {
      assert m - {k} == m;
    }
  }

  /** Where an observation goes: its own series, or the overflow series once the
      bound is reached. */
  function Fold<T>(values: map<string, T>, labels: string, bound: nat): string {
    if labels !in values && |values| >= bound then OVERFLOW else labels
  }

  /** At most `bound` series, and one more only if it is the overflow series. */
  ghost predicate Bounded<T>(values: map<string, T>, bound: nat) {
    |values| <= bound || (|values| == bound + 1 && OVERFLOW in values)
  }

  lemma FoldingStaysBounded<T>(values: map<string, T>, labels: string, bound: nat, v: T)
    requires Bounded(values, bound)
    ensures Bounded(values[Fold(values, labels, bound) := v], bound)
  {
    var k := Fold(values, labels, bound);
    var after := values[k := v];
    if k in values {
      assert after.Keys == values.Keys;
    } else {
      assert after.Keys == values.Keys + {k};
    }
    assert |after| == |after.Keys| && |values| == |values.Keys|;
  }

  function Same(): nat -> nat { (n: nat) => n }

  // ---- What a run of increments counts ----

  function Raised(values: map<string, nat>, k: string): map<string, nat> {
    values[k := (if k in values then values[k] else 0) + 1]
  }

  function Counted(log: seq<string>, bound: nat): map<string, nat> {
    if log == [] then map[]
    else
      var before, labels := Counted(log[..|log| - 1], bound), log[|log| - 1];
      Raised(before, Fold(before, labels, bound))
  }

  function Occurrences(log: seq<string>, labels: string): nat {
    if log == [] then 0
    else Occurrences(log[..|log| - 1], labels) + if log[|log| - 1] == labels then 1 else 0
  }

  function Distinct(log: seq<string>): set<string> {
    set labels | labels in log
  }

  lemma DistinctNext(log: seq<string>)
    requires log != []
    ensures Distinct(log) == Distinct(log[..|log| - 1]) + {log[|log| - 1]}
    ensures |Distinct(log[..|log| - 1])| <= |Distinct(log)|
    ensures log[|log| - 1] in Distinct(log[..|log| - 1]) || |Distinct(log[..|log| - 1])| < |Distinct(log)|
  {
    var before, last := log[..|log| - 1], log[|log| - 1];
    assert log == before + [last];
    if last in Distinct(before) { assert Distinct(log) == Distinct(before); }
  }

  lemma CountedNext(log: seq<string>, labels: string, bound: nat)
    ensures var before := Counted(log, bound);
            Counted(log + [labels], bound) == Raised(before, Fold(before, labels, bound))
  {
    assert (log + [labels])[..|log|] == log;
  }

  /** The series hold exactly these increments, whatever was folded. */
  ghost predicate Tallies(values: map<string, nat>, log: seq<string>, bound: nat) {
    Bounded(values, bound) && Sum(values, Same()) == |log| && values == Counted(log, bound)
  }

  lemma IncrementIsKept(values: map<string, nat>, log: seq<string>, labels: string, bound: nat)
    requires Tallies(values, log, bound)
    ensures Tallies(Raised(values, Fold(values, labels, bound)), log + [labels], bound)
  {
    var k := Fold(values, labels, bound);
    FoldingStaysBounded(values, labels, bound, Raised(values, k)[k]);
    SumAfterUpdate(values, Same(), k, Raised(values, k)[k]);
    CountedNext(log, labels, bound);
  }

  lemma {:induction false} CountedExactly(log: seq<string>, bound: nat, labels: string)
    requires |Distinct(log)| <= bound
    ensures var values := Counted(log, bound);
            && values.Keys == Distinct(log)
            && (if labels in values then values[labels] else 0) == Occurrences(log, labels)
  {
    if log != [] {
      DistinctNext(log);
      CountedExactly(log[..|log| - 1], bound, labels);
      CountedExactly(log[..|log| - 1], bound, log[|log| - 1]);
    }
  }

  class CounterVec {
    const maxLabelSets: nat
    var values: map<string, nat>
    ghost var log: seq<string>   // the labels of every increment

    /** Folding loses no increment. */
    ghost predicate Valid()
      reads this
    {
      Tallies(values, log, maxLabelSets)
    }

    /** Until the distinct labels outgrow the bound, each has its own exact count. */
    lemma CountsAreExactBelowTheBound(labels: string)
      requires Valid() && |Distinct(log)| <= maxLabelSets
      ensures (if labels in values then values[labels] else 0) == Occurrences(log, labels)
    {
      CountedExactly(log, maxLabelSets, labels);
    }

    constructor (maxLabelSets: nat)
      ensures Valid() && this.maxLabelSets == maxLabelSets && values == map[] && log == []
    {
      this.maxLabelSets := maxLabelSets;
      values, log := map[], [];
    }

    /** inc. */
    method Inc(labels: string)
      requires Valid()
      modifies this
      ensures Valid() && log == old(log) + [labels]
      ensures var k := if labels in old(values) || |old(values)| < maxLabelSets then labels else OVERFLOW;
              values == old(values)[k := (if k in old(values) then old(values)[k] else 0) + 1]
    {
      var k := if labels !in values && |values| >= maxLabelSets then OVERFLOW else labels;
      var n := (if k in values then values[k] else 0) + 1;
      IncrementIsKept(values, log, labels, maxLabelSets);
      assert values[k := n] == Raised(values, Fold(values, labels, maxLabelSets));
      values, log := values[k := n], log + [labels];
    }
  }

  // ---- Histograms ----

  datatype Histogram = Histogram(counts: seq<nat>, sum: nat, total: nat)

  function Empty(n: nat): Histogram { Histogram(seq(n, _ => 0), 0, 0) }

  function CountAt(h: Histogram, i: nat): nat {
    if i < |h.counts| then h.counts[i] else 0
  }

  function Bucket(i: nat): Histogram -> nat { (h: Histogram) => CountAt(h, i) }

  function Totals(): Histogram -> nat { (h: Histogram) => h.total }

  function Sums(): Histogram -> nat { (h: Histogram) => h.sum }

  ghost predicate WellFormed(values: map<string, Histogram>, n: nat) {
    forall k :: k in values ==> |values[k].counts| == n
  }

  /** Observations at or below `upper`. */
  function AtMost(obs: seq<nat>, upper: nat): nat {
    if obs == [] then 0
    else AtMost(obs[..|obs| - 1], upper) + (if obs[|obs| - 1] <= upper then 1 else 0)
  }

  function Total(obs: seq<nat>): nat {
    if obs == [] then 0 else Total(obs[..|obs| - 1]) + obs[|obs| - 1]
  }

  /** The histogram of exactly these observations. */
  function HistogramOf(b: seq<nat>, obs: seq<nat>): Histogram {
    Histogram(seq(|b|, i requires 0 <= i < |b| => AtMost(obs, b[i])), Total(obs), |obs|)
  }

  /** The series together hold exactly these observations. */
  ghost predicate Holds(b: seq<nat>, values: map<string, Histogram>, obs: seq<nat>) {
    && (forall i :: 0 <= i < |b| ==> Sum(values, Bucket(i)) == AtMost(obs, b[i]))
    && Sum(values, Totals()) == |obs|
    && Sum(values, Sums()) == Total(obs)
  }

  function Observed(b: seq<nat>, h: Histogram, ms: nat): Histogram
    requires |h.counts| == |b|
  {
    Histogram(
      seq(|b|, i requires 0 <= i < |b| => h.counts[i] + (if ms <= b[i] then 1 else 0)),
      h.sum + ms, h.total + 1)
  }

  lemma ObservationIsHeld(b: seq<nat>, values: map<string, Histogram>, obs: seq<nat>, k: string, ms: nat)
    requires WellFormed(values, |b|) && Holds(b, values, obs)
    ensures var entry := if k in values then values[k] else Empty(|b|);
            Holds(b, values[k := Observed(b, entry, ms)], obs + [ms])
  {
    var entry := if k in values then values[k] else Empty(|b|);
    var after := Observed(b, entry, ms);
    assert (obs + [ms])[..|obs|] == obs;
    forall i | 0 <= i < |b|
      ensures Sum(values[k := after], Bucket(i)) == AtMost(obs + [ms], b[i])
    {
      SumAfterUpdate(values, Bucket(i), k, after);
    }
    SumAfterUpdate(values, Totals(), k, after);
    SumAfterUpdate(values, Sums(), k, after);
  }

  function Added(h: Histogram, other: Histogram): Histogram
    requires |h.counts| == |other.counts|
  {
    Histogram(seq(|h.counts|, i requires 0 <= i < |h.counts| => h.counts[i] + other.counts[i]),
              h.sum + other.sum, h.total + other.total)
  }

  /** `total` and the series left to add make up all the series. */
  ghost predicate Covers(total: Histogram, left: map<string, Histogram>, all: map<string, Histogram>, n: nat) {
    && |total.counts| == n
    && (forall i :: 0 <= i < n ==> total.counts[i] + Sum(left, Bucket(i)) == Sum(all, Bucket(i)))
    && total.total + Sum(left, Totals()) == Sum(all, Totals())
    && total.sum + Sum(left, Sums()) == Sum(all, Sums())
  }

  lemma AddingCovers(total: Histogram, left: map<string, Histogram>, all: map<string, Histogram>, n: nat, k: string)
    requires Covers(total, left, all, n) && WellFormed(left, n) && k in left
    ensures Covers(Added(total, left[k]), left - {k}, all, n)
  {
    forall i | 0 <= i < n ensures Added(total, left[k]).counts[i] + Sum(left - {k}, Bucket(i)) == Sum(all, Bucket(i)) {
      SumTakesAnyFirst(left, Bucket(i), k);
    }
    SumTakesAnyFirst(left, Totals(), k);
    SumTakesAnyFirst(left, Sums(), k);
  }

  class HistogramVec {
    const maxLabelSets: nat
    const buckets: seq<nat>
    var values: map<string, Histogram>
    ghost var observations: seq<nat>

    /** Whatever the labels, the series together hold every observation. */
    ghost predicate Valid()
      reads this
    {
      Bounded(values, maxLabelSets) && WellFormed(values, |buckets|) && Holds(buckets, values, observations)
    }

    constructor (maxLabelSets: nat, buckets: seq<nat>)
      ensures Valid() && values == map[] && observations == []
      ensures this.maxLabelSets == maxLabelSets && this.buckets == buckets
    {
      this.maxLabelSets, this.buckets := maxLabelSets, buckets;
      values, observations := map[], [];
    }

    /** observe. */
    method Observe(labels: string, ms: nat)
      requires Valid()
      modifies this
      ensures Valid() && observations == old(observations) + [ms]
      ensures var k := if labels in old(values) || |old(values)| < maxLabelSets then labels else OVERFLOW;
              var entry := if k in old(values) then old(values)[k] else Empty(|buckets|);
              values == old(values)[k := Observed(buckets, entry, ms)]
    {
      var k := if labels !in values && |values| >= maxLabelSets then OVERFLOW else labels;
      var entry := if k in values then values[k] else Empty(|buckets|);
      var counts := entry.counts;
      for i := 0 to |buckets|
        invariant |counts| == |buckets|
        invariant forall j :: 0 <= j < i ==> counts[j] == entry.counts[j] + (if ms <= buckets[j] then 1 else 0)
        invariant forall j :: i <= j < |buckets| ==> counts[j] == entry.counts[j]
      {
        if ms <= buckets[i] { counts := counts[i := counts[i] + 1]; }
      }
      var after := Histogram(counts, entry.sum + ms, entry.total + 1);
      assert after == Observed(buckets, entry, ms);
      FoldingStaysBounded(values, labels, maxLabelSets, after);
      ObservationIsHeld(buckets, values, observations, k, ms);
      values, observations := values[k := after], observations + [ms];
    }

    /** requestDurationTotal: every label set added up is the histogram of all
        observations, however they were labelled or folded. */
    method DurationTotal() returns (total: Histogram)
      requires Valid()
      ensures total == HistogramOf(buckets, observations)
    {
      total := Empty(|buckets|);
      var left := values;
      while left != map[]
        invariant WellFormed(left, |buckets|) && Covers(total, left, values, |buckets|)
        decreases left.Keys
      {
        var k :| k in left;
        AddingCovers(total, left, values, |buckets|, k);
        total := Added(total, left[k]);
        left := left - {k};
      }
    }
  }

  // ---- The record CloudWatch takes percentiles of ----

  /** Requests, and their latencies as values with counts. */
  datatype Record = Record(requests: nat, values: seq<nat>, counts: seq<nat>)

  /** The requests a record puts at or below `upper`. */
  function EmittedAtMost(values: seq<nat>, counts: seq<nat>, upper: nat): nat
    requires |values| == |counts|
  {
    if values == [] then 0
    else
      var n := |values| - 1;
      EmittedAtMost(values[..n], counts[..n], upper) + (if values[n] <= upper then counts[n] else 0)
  }

  lemma EmittedAppend(values: seq<nat>, counts: seq<nat>, v: nat, c: nat, upper: nat)
    requires |values| == |counts|
    ensures EmittedAtMost(values + [v], counts + [c], upper)
         == EmittedAtMost(values, counts, upper) + if v <= upper then c else 0
  {
    assert (values + [v])[..|values|] == values && (counts + [c])[..|counts|] == counts;
  }

  /** Every value is below `bound`, they increase, and none stands for nobody. */
  ghost predicate Proper(values: seq<nat>, counts: seq<nat>, bound: nat) {
    && |values| == |counts|
    && (forall j :: 0 <= j < |values| ==> values[j] < bound && counts[j] > 0)
    && (forall i, j :: 0 <= i < j < |values| ==> values[i] < values[j])
  }

  lemma {:induction false} AllEmittedAtMost(values: seq<nat>, counts: seq<nat>, a: nat, b: nat)
    requires |values| == |counts| && forall j :: 0 <= j < |values| ==> values[j] <= a && values[j] <= b
    ensures EmittedAtMost(values, counts, a) == EmittedAtMost(values, counts, b)
  {
    if values != [] {
      var n := |values| - 1;
      AllEmittedAtMost(values[..n], counts[..n], a, b);
    }
  }

  lemma {:induction false} AtMostSplits(a: seq<nat>, b: seq<nat>, upper: nat)
    ensures AtMost(a + b, upper) == AtMost(a, upper) + AtMost(b, upper)
  {
    if b == [] {
      assert a + b == a;
    } else {
      assert (a + b)[..|a + b| - 1] == a + b[..|b| - 1];
      AtMostSplits(a, b[..|b| - 1], upper);
    }
  }

  lemma {:induction false} AtMostGrows(obs: seq<nat>, lower: nat, upper: nat)
    requires lower <= upper
    ensures AtMost(obs, lower) <= AtMost(obs, upper) <= |obs|
  {
    if obs != [] { AtMostGrows(obs[..|obs| - 1], lower, upper); }
  }

  lemma SmallDifference(a: nat, b: nat)
    requires b <= a < U64
    ensures Sub64(a, b) == a - b
  {
  }

  /** Each value is a bucket's bound or stands for the rest. */
  predicate BucketValues(b: seq<nat>, values: seq<nat>) {
    forall j :: 0 <= j < |values| ==> values[j] in b || values[j] == OVERFLOW_MS
  }

  /** The record's distribution is the requests' own, read at every bucket
      bound; the slowest are put at a minute. */
  ghost predicate Describes(b: seq<nat>, r: Record, finished: seq<nat>) {
    && r.requests == |finished|
    && Proper(r.values, r.counts, OVERFLOW_MS + 1)
    && BucketValues(b, r.values)
    && (forall i :: 0 <= i < |b| ==> EmittedAtMost(r.values, r.counts, b[i]) == AtMost(finished, b[i]))
    && EmittedAtMost(r.values, r.counts, OVERFLOW_MS) == |finished|
  }

  /** How far the loop of emfFields has got. */
  ghost predicate DescribesUpTo(b: seq<nat>, values: seq<nat>, counts: seq<nat>, finished: seq<nat>, i: nat)
    requires i <= |b|
  {
    && Proper(values, counts, if i == 0 then 0 else b[i - 1] + 1)
    && (forall j :: 0 <= j < |values| ==> values[j] in b)
    && (forall k :: 0 <= k < i ==> EmittedAtMost(values, counts, b[k]) == AtMost(finished, b[k]))
  }

  /** What was emitted so far counts the same up to the next bound as up to the last. */
  lemma EmittedUpToNext(b: seq<nat>, values: seq<nat>, counts: seq<nat>, finished: seq<nat>, i: nat)
    requires IsBuckets(b) && i < |b| && DescribesUpTo(b, values, counts, finished, i)
    ensures EmittedAtMost(values, counts, b[i]) == if i == 0 then 0 else AtMost(finished, b[i - 1])
  {
    if i > 0 { AllEmittedAtMost(values, counts, b[i - 1], b[i]); }
  }

  /** A bucket that adds nobody is left out of the record. */
  lemma EmptyBucket(b: seq<nat>, values: seq<nat>, counts: seq<nat>, finished: seq<nat>, i: nat)
    requires IsBuckets(b) && i < |b| && DescribesUpTo(b, values, counts, finished, i)
    requires AtMost(finished, b[i]) == if i == 0 then 0 else AtMost(finished, b[i - 1])
    ensures DescribesUpTo(b, values, counts, finished, i + 1)
  {
    EmittedUpToNext(b, values, counts, finished, i);
  }

  lemma OneMoreBucket(b: seq<nat>, values: seq<nat>, counts: seq<nat>, finished: seq<nat>, i: nat, n: nat)
    requires IsBuckets(b) && i < |b| && DescribesUpTo(b, values, counts, finished, i)
    requires n > 0 && n == AtMost(finished, b[i]) - (if i == 0 then 0 else AtMost(finished, b[i - 1]))
    ensures DescribesUpTo(b, values + [b[i]], counts + [n], finished, i + 1)
  {
    ProperAppend(values, counts, if i == 0 then 0 else b[i - 1] + 1, b[i], n);
    forall k | 0 <= k <= i ensures EmittedAtMost(values + [b[i]], counts + [n], b[k]) == AtMost(finished, b[k]) {
      EmittedWithOneMore(b, values, counts, finished, i, n, k);
    }
  }

  lemma EmittedWithOneMore(b: seq<nat>, values: seq<nat>, counts: seq<nat>, finished: seq<nat>, i: nat, n: nat, k: nat)
    requires IsBuckets(b) && k <= i < |b| && DescribesUpTo(b, values, counts, finished, i)
    requires n == AtMost(finished, b[i]) - (if i == 0 then 0 else AtMost(finished, b[i - 1]))
    ensures EmittedAtMost(values + [b[i]], counts + [n], b[k]) == AtMost(finished, b[k])
  {
    EmittedAppend(values, counts, b[i], n, b[k]);
    if k == i { EmittedUpToNext(b, values, counts, finished, i); }
  }

  lemma NothingOverflows(b: seq<nat>, values: seq<nat>, counts: seq<nat>, finished: seq<nat>)
    requires IsBuckets(b) && DescribesUpTo(b, values, counts, finished, |b|)
    requires |finished| == AtMost(finished, b[|b| - 1])
    ensures Describes(b, Record(|finished|, values, counts), finished)
  {
    AllEmittedAtMost(values, counts, b[|b| - 1], OVERFLOW_MS);
  }

  lemma TheRestOverflows(b: seq<nat>, values: seq<nat>, counts: seq<nat>, finished: seq<nat>, n: nat)
    requires IsBuckets(b) && DescribesUpTo(b, values, counts, finished, |b|)
    requires n == |finished| - AtMost(finished, b[|b| - 1]) && n > 0
    ensures Describes(b, Record(|finished|, values + [OVERFLOW_MS], counts + [n]), finished)
  {
    ProperAppend(values, counts, b[|b| - 1] + 1, OVERFLOW_MS, n);
    RestIsNoBucket(b, values);
    TheRestIsEmitted(b, values, counts, finished, n);
    BucketsIgnoreTheRest(b, values, counts, finished, n);
  }

  lemma RestIsNoBucket(b: seq<nat>, values: seq<nat>)
    requires forall j :: 0 <= j < |values| ==> values[j] in b
    ensures BucketValues(b, values + [OVERFLOW_MS])
  {
  }

  lemma TheRestIsEmitted(b: seq<nat>, values: seq<nat>, counts: seq<nat>, finished: seq<nat>, n: nat)
    requires IsBuckets(b) && DescribesUpTo(b, values, counts, finished, |b|)
    requires n == |finished| - AtMost(finished, b[|b| - 1])
    ensures EmittedAtMost(values + [OVERFLOW_MS], counts + [n], OVERFLOW_MS) == |finished|
  {
    AllEmittedAtMost(values, counts, b[|b| - 1], OVERFLOW_MS);
    EmittedAppend(values, counts, OVERFLOW_MS, n, OVERFLOW_MS);
  }

  lemma BucketsIgnoreTheRest(b: seq<nat>, values: seq<nat>, counts: seq<nat>, finished: seq<nat>, n: nat)
    requires IsBuckets(b) && DescribesUpTo(b, values, counts, finished, |b|)
    ensures forall k :: 0 <= k < |b| ==>
              EmittedAtMost(values + [OVERFLOW_MS], counts + [n], b[k]) == AtMost(finished, b[k])
  {
    forall k | 0 <= k < |b|
      ensures EmittedAtMost(values + [OVERFLOW_MS], counts + [n], b[k]) == AtMost(finished, b[k])
    {
      EmittedAppend(values, counts, OVERFLOW_MS, n, b[k]);
    }
  }

  lemma ProperAppend(values: seq<nat>, counts: seq<nat>, bound: nat, v: nat, n: nat)
    requires Proper(values, counts, bound) && v >= bound && n > 0
    ensures Proper(values + [v], counts + [n], v + 1)
  {
  }

  /** Neither subtraction of a bucket's counts wraps. */
  lemma BucketDifferences(before: seq<nat>, finished: seq<nat>, upper: nat, lower: nat, below: nat)
    requires |before + finished| < U64 && lower <= upper && below <= AtMost(finished, lower)
    ensures var upTo := Sub64(AtMost(before + finished, upper), AtMost(before, upper));
            upTo == AtMost(finished, upper) && Sub64(upTo, below) == AtMost(finished, upper) - below
  {
    AtMostSplits(before, finished, upper);
    AtMostGrows(before + finished, 0, upper);
    AtMostGrows(finished, lower, upper);
    SmallDifference(AtMost(before + finished, upper), AtMost(before, upper));
    SmallDifference(AtMost(finished, upper), below);
  }

  /** emfFields between two totals of the same histogram. None of its uint64
      subtractions wraps, its counts add up to the requests finished since, and
      its distribution is theirs. */
  method EmfRecord(b: seq<nat>, prev: Histogram, cur: Histogram, ghost before: seq<nat>, ghost finished: seq<nat>)
    returns (r: Record)
    requires IsBuckets(b) && prev == HistogramOf(b, before) && cur == HistogramOf(b, before + finished)
    requires |before + finished| < U64
    ensures Describes(b, r, finished)
  {
    var values: seq<nat>, counts: seq<nat> := [], [];
    var below := 0;
    SmallDifference(cur.total, prev.total);
    var requests := Sub64(cur.total, prev.total);
    for i := 0 to |b|
      invariant DescribesUpTo(b, values, counts, finished, i)
      invariant below == if i == 0 then 0 else AtMost(finished, b[i - 1])
    {
      BucketDifferences(before, finished, b[i], if i == 0 then 0 else b[i - 1], below);
      var upTo := Sub64(cur.counts[i], prev.counts[i]);
      var n := Sub64(upTo, below);
      if n == 0 {
        EmptyBucket(b, values, counts, finished, i);
      } else {
        OneMoreBucket(b, values, counts, finished, i, n);
        values, counts := values + [b[i]], counts + [n];
      }
      below := upTo;
    }
    AtMostGrows(finished, 0, b[|b| - 1]);
    SmallDifference(requests, below);
    var n := Sub64(requests, below);
    if n == 0 {
      NothingOverflows(b, values, counts, finished);
    } else {
      TheRestOverflows(b, values, counts, finished, n);
      values, counts := values + [OVERFLOW_MS], counts + [n];
    }
    r := Record(requests, values, counts);
  }

  /** ... and with the gateway's own latency buckets. */
  method LatencyRecord(prev: Histogram, cur: Histogram, ghost before: seq<nat>, ghost finished: seq<nat>)
    returns (r: Record)
    requires prev == HistogramOf(BUCKETS, before) && cur == HistogramOf(BUCKETS, before + finished)
    requires |before + finished| < U64
    ensures Describes(BUCKETS, r, finished)
  {
    LatencyBucketsAreBuckets();
    r := EmfRecord(BUCKETS, prev, cur, before, finished);
  }

  // ---- Quantiles ----

  /** `x` is the latency of rank `k`: at least k requests took no longer, and
      fewer than k took less. */
  ghost predicate IsRank(finished: seq<nat>, k: nat, x: nat) {
    AtMost(finished, x) >= k && (x > 0 ==> AtMost(finished, x - 1) < k)
  }

  /** `v` is what a reader of the record takes for the latency of rank `k`: the
      first value that accounts for k requests. */
  ghost predicate ReadsAs(r: Record, k: nat, v: nat)
    requires |r.values| == |r.counts|
  {
    && v in r.values
    && EmittedAtMost(r.values, r.counts, v) >= k
    && forall u :: u in r.values && u < v ==> EmittedAtMost(r.values, r.counts, u) < k
  }

  lemma {:induction false} SomeValueAccounts(values: seq<nat>, counts: seq<nat>, k: nat, upper: nat) returns (u: nat)
    requires |values| == |counts| && 1 <= k <= EmittedAtMost(values, counts, upper)
    requires forall i, j :: 0 <= i < j < |values| ==> values[i] < values[j]
    ensures u in values && u <= upper && EmittedAtMost(values, counts, u) >= k
  {
    var n := |values| - 1;
    if values[n] <= upper {
      u := values[n];
      AllEmittedAtMost(values, counts, upper, u);
    } else {
      u := SomeValueAccounts(values[..n], counts[..n], k, upper);
      assert values == values[..n] + [values[n]] && counts == counts[..n] + [counts[n]];
      EmittedAppend(values[..n], counts[..n], values[n], counts[n], u);
    }
  }

  /** Every quantile read from a record is at least the true one exactly for
      latencies up to a minute. */
  lemma QuantilesAreNeverFlattered(b: seq<nat>, r: Record, finished: seq<nat>, k: nat, x: nat, v: nat)
    requires IsBuckets(b) && Describes(b, r, finished) && 1 <= k <= |finished|
    requires IsRank(finished, k, x) && ReadsAs(r, k, v)
    ensures v >= x <==> x <= OVERFLOW_MS
  {
    if v == OVERFLOW_MS {
    } else {
      var i :| 0 <= i < |b| && b[i] == v;
      if x > v { AtMostGrows(finished, v, x - 1); }
    }
  }

  /** ... and it is off by no more than its bucket: no lower bucket bound
      reaches the true latency. */
  lemma QuantilesAreTightToTheBucket(b: seq<nat>, r: Record, finished: seq<nat>, k: nat, x: nat, v: nat, i: nat)
    requires IsBuckets(b) && Describes(b, r, finished) && 1 <= k <= |finished|
    requires IsRank(finished, k, x) && ReadsAs(r, k, v)
    requires i < |b| && b[i] < v
    ensures b[i] < x
  {
    if x <= b[i] {
      AtMostGrows(finished, x, b[i]);
      var u := SomeValueAccounts(r.values, r.counts, k, b[i]);
    }
  }

  /** Every rank has a reading. */
  lemma {:induction false} EveryRankReads(b: seq<nat>, r: Record, finished: seq<nat>, k: nat) returns (v: nat)
    requires IsBuckets(b) && Describes(b, r, finished) && 1 <= k <= |finished|
    ensures ReadsAs(r, k, v)
  {
    v := SomeValueAccounts(r.values, r.counts, k, OVERFLOW_MS);
    v := LowestReading(r, k, v);
  }

  lemma {:induction false} LowestReading(r: Record, k: nat, above: nat) returns (v: nat)
    requires |r.values| == |r.counts| && above in r.values && EmittedAtMost(r.values, r.counts, above) >= k
    ensures ReadsAs(r, k, v)
    decreases above
  {
    if u :| u in r.values && u < above && EmittedAtMost(r.values, r.counts, u) >= k {
      v := LowestReading(r, k, u);
    } else {
      v := above;
    }
  }
}
