/** Counters and histograms: what the exported cumulative buckets count, and when they are right. */
module Metrics {
  import opened Common

  datatype Histogram = Histogram(count: nat, sum: real, bounds: seq<real>, buckets: seq<nat>)

  const EMPTY := Histogram(0, 0.0, [], [])

  /** One call of `observe`; a value that is not finite is `None`. */
  datatype Reading = Reading(value: Option<real>, bounds: seq<real>)

  predicate Ascending(s: seq<real>) {
    forall i, j :: 0 <= i < j < |s| ==> s[i] < s[j]
  }

  // ---------------------------------------------------------------- operations

  predicate NameCharacter(c: char) {
    'a' <= c <= 'z' || 'A' <= c <= 'Z' || '0' <= c <= '9' || c == '_' || c == ':'
  }

  function MetricName(name: string): (r: string)
    ensures |r| == |name| && forall i :: 0 <= i < |name| ==> r[i] == if NameCharacter(name[i]) then name[i] else '_'
  {
    if name == "" then ""
    else [if NameCharacter(name[0]) then name[0] else '_'] + MetricName(name[1..])
  }

  /** Puts a bound into its place unless it is there already. */
  function Insert(s: seq<real>, x: real): (r: seq<real>) {
    if s == [] then [x]
    else if x < s[0] then [x] + s
    else if x == s[0] then s
    else [s[0]] + Insert(s[1..], x)
  }

  /** Sorted, without repetitions. */
  function Arrange(s: seq<real>): (r: seq<real>) {
    if s == [] then [] else Insert(Arrange(s[1..]), s[0])
  }

  lemma {:induction false} InsertAscends(s: seq<real>, x: real)
    requires Ascending(s)
    ensures Ascending(Insert(s, x)) && (forall y :: y in Insert(s, x) <==> y == x || y in s)
  {
    if s != [] && x > s[0] {
      InsertAscends(s[1..], x);
      assert s == [s[0]] + s[1..];
      forall k | 0 <= k < |Insert(s[1..], x)| ensures s[0] < Insert(s[1..], x)[k] {
        assert Insert(s[1..], x)[k] in Insert(s[1..], x);
      }
    }
  }

  /** The bounds a histogram works with: ascending, and exactly those it was given. */
  lemma {:induction false} ArrangeAscends(s: seq<real>)
    ensures Ascending(Arrange(s)) && (forall y :: y in Arrange(s) <==> y in s)
  {
    if s != [] {
      ArrangeAscends(s[1..]);
      InsertAscends(Arrange(s[1..]), s[0]);
      assert s == [s[0]] + s[1..];
    }
  }

  /** The first bound at or above a value. */
  function LowerBound(bounds: seq<real>, value: real): (r: nat)
    ensures r <= |bounds| && (r < |bounds| ==> value <= bounds[r])
    ensures forall i :: 0 <= i < r ==> bounds[i] < value
  {
    if bounds == [] || value <= bounds[0] then 0 else 1 + LowerBound(bounds[1..], value)
  }

  function Resize(s: seq<nat>, n: nat): (r: seq<nat>)
    ensures |r| == n
  {
    if n <= |s| then s[..n] else s + seq(n - |s|, i => 0)
  }

  predicate WellFormed(h: Histogram) { h.bounds != [] ==> |h.buckets| == |h.bounds| + 1 }

  /** A histogram without bounds adopts the caller's, keeping what it has counted. */
  function Adopt(h: Histogram, bounds: seq<real>): (r: Histogram)
    requires WellFormed(h)
    ensures |r.buckets| == |r.bounds| + 1
  {
    if h.bounds != [] then h
    else h.(bounds := Arrange(bounds), buckets := Resize(h.buckets, |Arrange(bounds)| + 1))
  }

  function Observe(h: Histogram, x: Reading): (r: Histogram)
    requires WellFormed(h)
    ensures WellFormed(r)
  {
    if x.value.None? then h
    else
      var g := Adopt(h, x.bounds);
      var i := LowerBound(g.bounds, x.value.value);
      g.(count := g.count + 1, sum := g.sum + x.value.value, buckets := g.buckets[i := g.buckets[i] + 1])
  }

  function ObserveAll(readings: seq<Reading>): (r: Histogram)
    ensures WellFormed(r)
    decreases |readings|
  {
    if readings == [] then EMPTY
    else Observe(ObserveAll(readings[..|readings| - 1]), readings[|readings| - 1])
  }

  function Sum(s: seq<nat>): nat {
    if s == [] then 0 else Sum(s[..|s| - 1]) + s[|s| - 1]
  }

  /** The value exported for bucket `i`; the last one has no upper bound. */
  function Cumulative(buckets: seq<nat>, i: nat): nat
    requires i < |buckets|
  {
    Sum(buckets[..i + 1])
  }

  /** The running total of the export. */
  method ExportBuckets(h: Histogram) returns (out: seq<nat>)
    ensures |out| == |h.buckets| && forall i :: 0 <= i < |out| ==> out[i] == Cumulative(h.buckets, i)
  {
    out := [];
    var cumulative := 0;
    for i := 0 to |h.buckets|
      invariant |out| == i && cumulative == Sum(h.buckets[..i])
      invariant forall k :: 0 <= k < i ==> out[k] == Cumulative(h.buckets, k)
    {
      assert h.buckets[..i + 1][..i] == h.buckets[..i];
      cumulative := cumulative + h.buckets[i];
      out := out + [cumulative];
    }
  }

  // ---------------------------------------------------------------- what the buckets count

  function AtMost(values: seq<real>, bound: real): nat {
    if values == [] then 0
    else AtMost(values[..|values| - 1], bound) + if values[|values| - 1] <= bound then 1 else 0
  }

  /** The finite values, and those of them observed while the histogram had no bounds. */
  function Values(readings: seq<Reading>): seq<real>
    decreases |readings|
  {
    if readings == [] then []
    else
      var x := readings[|readings| - 1];
      Values(readings[..|readings| - 1]) + if x.value.Some? then [x.value.value] else []
  }

  /** The values that a histogram took before it had bounds: all up to the first reading that
      brought some. */
  function Early(readings: seq<Reading>): seq<real>
    decreases |readings|
  {
    if readings == [] then []
    else
      var before := readings[..|readings| - 1];
      var x := readings[|readings| - 1];
      if ObserveAll(before).bounds == [] && x.value.Some? && x.bounds == [] then Early(before) + [x.value.value]
      else Early(before)
  }

  function Late(readings: seq<Reading>): seq<real>
    decreases |readings|
  {
    if readings == [] then []
    else
      var before := readings[..|readings| - 1];
      var x := readings[|readings| - 1];
      if x.value.Some? && (ObserveAll(before).bounds != [] || x.bounds != []) then Late(before) + [x.value.value]
      else Late(before)
  }

  lemma {:induction false} SumStep(s: seq<nat>, i: nat, k: nat)
    requires i < |s| && k <= |s|
    ensures Sum(s[i := s[i] + 1][..k]) == Sum(s[..k]) + if i < k then 1 else 0
    decreases k
  {
    var s' := s[i := s[i] + 1];
    if k > 0 {
      SumStep(s, i, k - 1);
      assert s[..k][..k - 1] == s[..k - 1] && s'[..k][..k - 1] == s'[..k - 1];
    }
  }

  lemma {:induction false} SumOfResized(s: seq<nat>, n: nat, k: nat)
    requires |s| <= 1 && 0 < k <= n
    ensures Sum(Resize(s, n)[..k]) == Sum(s)
    decreases k
  {
    var r := Resize(s, n);
    if k == 1 {
      assert r[..1] == [r[0]] && r[..1][..0] == [];
      assert |s| == 1 ==> s[..0] == [];
    } else {
      SumOfResized(s, n, k - 1);
      assert r[..k][..k - 1] == r[..k - 1];
    }
  }

  /** What a histogram with bounds has counted: the early values in every bucket, the late ones from
      their own bucket on. */
  ghost predicate Counts(bounds: seq<real>, buckets: seq<nat>, early: nat, late: seq<real>) {
    && Ascending(bounds) && |buckets| == |bounds| + 1
    && (forall i {:trigger Cumulative(buckets, i)} :: 0 <= i < |bounds| ==> Cumulative(buckets, i) == early + AtMost(late, bounds[i]))
    && Cumulative(buckets, |bounds|) == early + |late|
  }

  ghost predicate Tracks(h: Histogram, early: nat, late: seq<real>) {
    && h.count == early + |late| && WellFormed(h)
    && if h.bounds == [] then late == [] && Sum(h.buckets) == early && |h.buckets| <= 1
       else Counts(h.bounds, h.buckets, early, late)
  }

  lemma CountsStep(bounds: seq<real>, buckets: seq<nat>, early: nat, late: seq<real>, value: real)
    requires Counts(bounds, buckets, early, late)
    ensures var i := LowerBound(bounds, value);
            Counts(bounds, buckets[i := buckets[i] + 1], early, late + [value])
  {
    var i := LowerBound(bounds, value);
    var buckets' := buckets[i := buckets[i] + 1];
    assert (late + [value])[..|late|] == late;
    forall k | 0 <= k < |bounds| ensures Cumulative(buckets', k) == early + AtMost(late + [value], bounds[k]) {
      SumStep(buckets, i, k + 1);
      assert Cumulative(buckets, k) == early + AtMost(late, bounds[k]);
      assert i <= k <==> value <= bounds[k];
    }
    SumStep(buckets, i, |bounds| + 1);
  }

  /** Taking on bounds puts everything counted so far into the first bucket. */
  lemma AdoptCounts(h: Histogram, early: nat, bounds: seq<real>)
    requires h.bounds == [] && Sum(h.buckets) == early && |h.buckets| <= 1
    ensures var g := Adopt(h, bounds); Counts(g.bounds, g.buckets, early, [])
  {
    ArrangeAscends(bounds);
    var g := Adopt(h, bounds);
    forall k | 0 <= k < |g.buckets| ensures Cumulative(g.buckets, k) == early {
      SumOfResized(h.buckets, |g.buckets|, k + 1);
    }
  }

  lemma {:induction false} HistogramTracks(readings: seq<Reading>)
    ensures Tracks(ObserveAll(readings), |Early(readings)|, Late(readings))
    decreases |readings|
  {
    if readings != [] {
      var before := readings[..|readings| - 1];
      HistogramTracks(before);
      TracksStep(ObserveAll(before), |Early(before)|, Late(before), readings[|readings| - 1]);
    }
  }

  lemma TracksStep(h: Histogram, early: nat, late: seq<real>, x: Reading)
    requires Tracks(h, early, late)
    ensures var takesBounds := h.bounds != [] || x.bounds != [];
            Tracks(Observe(h, x),
                   if x.value.Some? && !takesBounds then early + 1 else early,
                   if x.value.Some? && takesBounds then late + [x.value.value] else late)
  {
    if x.value.Some? {
      if h.bounds == [] { AdoptCounts(h, early, x.bounds); }
      var g := Adopt(h, x.bounds);
      CountsStep(g.bounds, g.buckets, early, late, x.value.value);
      ArrangeAscends(x.bounds);
      if h.bounds == [] && x.bounds == [] {
        UnboundedStep(g.buckets);
      } else if h.bounds == [] {
        assert x.bounds[0] in Arrange(x.bounds);
      }
    }
  }

  lemma UnboundedStep(buckets: seq<nat>)
    requires |buckets| == 1
    ensures Cumulative(buckets, 0) == Sum(buckets) && Sum(buckets[0 := buckets[0] + 1]) == Sum(buckets) + 1
  {
    assert buckets[..1] == buckets;
    SumStep(buckets, 0, 1);
    assert buckets[0 := buckets[0] + 1][..1] == buckets[0 := buckets[0] + 1];
  }

  // ---------------------------------------------------------------- when the export is right

  /** Every exported bucket counts the values at or below its bound. */
  ghost predicate ExportRight(readings: seq<Reading>) {
    var h := ObserveAll(readings);
    forall i :: 0 <= i < |h.bounds| && i < |h.buckets| ==> Cumulative(h.buckets, i) == AtMost(Values(readings), h.bounds[i])
  }

  /** Early and late values together are all values; early ones come first. */
  lemma {:induction false} ValuesSplit(readings: seq<Reading>)
    ensures Values(readings) == Early(readings) + Late(readings)
    ensures ObserveAll(readings).bounds == [] ==> Late(readings) == []
    decreases |readings|
  {
    if readings != [] {
      ValuesSplit(readings[..|readings| - 1]);
      HistogramTracks(readings);
    }
  }

  lemma {:induction false} AtMostConcat(a: seq<real>, b: seq<real>, bound: real)
    ensures AtMost(a + b, bound) == AtMost(a, bound) + AtMost(b, bound)
    decreases |b|
  {
    if b == [] {
      assert a + b == a;
    } else {
      AtMostConcat(a, b[..|b| - 1], bound);
      assert (a + b)[..|a + b| - 1] == a + b[..|b| - 1];
    }
  }

  lemma {:induction false} AtMostAll(values: seq<real>, bound: real)
    ensures AtMost(values, bound) <= |values|
    ensures AtMost(values, bound) == |values| <==> forall i :: 0 <= i < |values| ==> values[i] <= bound
    decreases |values|
  {
    if values != [] { AtMostAll(values[..|values| - 1], bound); }
  }

  /** The last bucket and the count are always the number of values. */
  lemma ExportEndsAtCount(readings: seq<Reading>)
    requires ObserveAll(readings).bounds != []
    ensures var h := ObserveAll(readings);
            && |h.buckets| == |h.bounds| + 1
            && Cumulative(h.buckets, |h.bounds|) == h.count == |Values(readings)|
  {
    HistogramTracks(readings);
    ValuesSplit(readings);
  }

  /** The export is right exactly when no value above the lowest bound was observed before the
      histogram had bounds. */
  lemma ExportRightIff(readings: seq<Reading>)
    requires ObserveAll(readings).bounds != []
    ensures ExportRight(readings) <==>
            forall i :: 0 <= i < |Early(readings)| ==> Early(readings)[i] <= ObserveAll(readings).bounds[0]
  {
    HistogramTracks(readings);
    ValuesSplit(readings);
    var h := ObserveAll(readings);
    var early := Early(readings);
    forall i | 0 <= i < |h.bounds|
      ensures Cumulative(h.buckets, i) == AtMost(Values(readings), h.bounds[i]) <==> AtMost(early, h.bounds[i]) == |early|
    {
      AtMostConcat(early, Late(readings), h.bounds[i]);
    }
    AtMostAll(early, h.bounds[0]);
    if AtMost(early, h.bounds[0]) == |early| {
      forall i | 0 <= i < |h.bounds| ensures AtMost(early, h.bounds[i]) == |early| { AtMostAll(early, h.bounds[i]); }
    } else {
      assert Cumulative(h.buckets, 0) != AtMost(Values(readings), h.bounds[0]);
    }
  }

  /** A histogram whose first reading brings bounds is always right. */
  lemma {:induction false} CreatedWithBounds(readings: seq<Reading>)
    requires |readings| > 0 && readings[0].value.Some? && readings[0].bounds != []
    ensures ObserveAll(readings).bounds == Arrange(readings[0].bounds) && Arrange(readings[0].bounds) != []
    ensures Early(readings) == [] && ExportRight(readings)
    decreases |readings|
  {
    ArrangeAscends(readings[0].bounds);
    assert readings[0].bounds[0] in Arrange(readings[0].bounds);
    if |readings| > 1 {
      CreatedWithBounds(readings[..|readings| - 1]);
    } else {
      assert readings[..0] == [];
    }
    ExportRightIff(readings);
  }

  lemma LateBounds(early: real, late: real, bound: real)
    ensures var readings := [Reading(Some(early), []), Reading(Some(late), [bound])];
            ObserveAll(readings).bounds == [bound] && Early(readings) == [early]
  {
    var first := [Reading(Some(early), [])];
    var readings := [Reading(Some(early), []), Reading(Some(late), [bound])];
    assert first[..0] == [] && readings[..1] == first;
    assert ObserveAll(first) == Observe(EMPTY, first[0]);
    assert Arrange([bound]) == Insert(Arrange([bound][1..]), bound) == [bound];
    assert Early(first) == [early];
  }

  /** A value that came before the bounds is exported in the lowest bucket, even one above them. */
  lemma LateBoundsMiscount(early: real, late: real, bound: real)
    ensures ExportRight([Reading(Some(early), []), Reading(Some(late), [bound])]) <==> early <= bound
  {
    var readings := [Reading(Some(early), []), Reading(Some(late), [bound])];
    LateBounds(early, late, bound);
    assert Early(readings)[0] == early && ObserveAll(readings).bounds[0] == bound;
    ExportRightIff(readings);
  }

  // ---------------------------------------------------------------- order does not matter

  lemma AtMostWithout(values: seq<real>, k: nat, bound: real)
    requires k < |values|
    ensures var rest := values[..k] + values[k + 1..];
            && multiset(rest) == multiset(values) - multiset{values[k]}
            && AtMost(values, bound) == AtMost(rest, bound) + if values[k] <= bound then 1 else 0
  {
    var front, back := values[..k], values[k + 1..];
    assert values == values[..k + 1] + back && values[..k + 1][..k] == front;
    assert values[..k + 1] == front + [values[k]];
    assert multiset(values) == multiset(front) + multiset{values[k]} + multiset(back);
    AtMostConcat(values[..k + 1], back, bound);
    AtMostConcat(front, back, bound);
  }

  /** A bucket depends only on which values were observed, not on their order. */
  lemma {:induction false} AtMostOfMultiset(a: seq<real>, b: seq<real>, bound: real)
    requires multiset(a) == multiset(b)
    ensures AtMost(a, bound) == AtMost(b, bound)
    decreases |a|
  {
    if a == [] {
      assert |b| == |multiset(b)| == |multiset(a)|;
    } else {
      assert a[0] in multiset(b);
      var k :| 0 <= k < |b| && b[k] == a[0];
      AtMostWithout(a, 0, bound);
      AtMostWithout(b, k, bound);
      AtMostOfMultiset(a[..0] + a[1..], b[..k] + b[k + 1..], bound);
    }
  }

  lemma {:induction false} BucketsFromCumulative(a: seq<nat>, b: seq<nat>)
    requires |a| == |b| && forall i :: 0 <= i < |a| ==> Cumulative(a, i) == Cumulative(b, i)
    ensures a == b
  {
    forall i | 0 <= i < |a| ensures a[i] == b[i] {
      assert Cumulative(a, i) == Cumulative(b, i);
      assert a[..i + 1][..i] == a[..i] && b[..i + 1][..i] == b[..i];
      if i > 0 {
        assert Cumulative(a, i - 1) == Cumulative(b, i - 1);
        assert a[..i - 1 + 1] == a[..i] && b[..i - 1 + 1] == b[..i];
      }
    }
  }

  /** Two histograms that were created with the same bounds and observed the same values, in whatever
      order, export the same buckets and the same count. */
  lemma OrderOfReadingsIrrelevant(xs: seq<Reading>, ys: seq<Reading>)
    requires |xs| > 0 && xs[0].value.Some? && xs[0].bounds != []
    requires |ys| > 0 && ys[0].value.Some? && ys[0].bounds == xs[0].bounds
    requires multiset(Values(xs)) == multiset(Values(ys))
    ensures ObserveAll(xs).buckets == ObserveAll(ys).buckets && ObserveAll(xs).count == ObserveAll(ys).count
  {
    CreatedWithBounds(xs);
    CreatedWithBounds(ys);
    SameValuesSameBuckets(xs, ys);
  }

  lemma SameValuesSameBuckets(xs: seq<Reading>, ys: seq<Reading>)
    requires ExportRight(xs) && ExportRight(ys)
    requires ObserveAll(xs).bounds == ObserveAll(ys).bounds != [] && multiset(Values(xs)) == multiset(Values(ys))
    ensures ObserveAll(xs).buckets == ObserveAll(ys).buckets && ObserveAll(xs).count == ObserveAll(ys).count
  {
    ExportEndsAtCount(xs);
    ExportEndsAtCount(ys);
    assert |Values(xs)| == |multiset(Values(xs))| == |Values(ys)|;
    var a, b := ObserveAll(xs).buckets, ObserveAll(ys).buckets;
    forall i | 0 <= i < |a| ensures Cumulative(a, i) == Cumulative(b, i) {
      if i < |a| - 1 { AtMostOfMultiset(Values(xs), Values(ys), ObserveAll(xs).bounds[i]); }
    }
    BucketsFromCumulative(a, b);
  }
}

/** The registry object. */
module MetricsRegistries {
  import opened Common
  import opened Metrics

  /** What a registry holds under a name that it has not seen. */
  function CounterOf(counters: map<string, nat>, name: string): nat {
    if MetricName(name) in counters then counters[MetricName(name)] else 0
  }

  function HistogramOf(histograms: map<string, Histogram>, name: string): Histogram {
    if MetricName(name) in histograms then histograms[MetricName(name)] else EMPTY
  }

  class MetricsRegistry {
    var counters: map<string, nat>
    var histograms: map<string, Histogram>
    ghost var readings: map<string, seq<Reading>>

    /** Every histogram is what its own readings make it. */
    ghost predicate Valid()
      reads this
    {
      && readings.Keys == histograms.Keys
      && forall name :: name in histograms ==> histograms[name] == ObserveAll(readings[name])
    }

    constructor ()
      ensures Valid() && counters == map[] && histograms == map[]
    {
      counters, histograms, readings := map[], map[], map[];
    }

    method Increment(name: string, value: nat)
      modifies this`counters
      ensures counters == old(counters)[MetricName(name) := CounterOf(old(counters), name) + value]
    {
      var key := MetricName(name);
      counters := counters[key := (if key in counters then counters[key] else 0) + value];
    }

    /** A value that is not finite does not even create the histogram. */
    method ObserveValue(name: string, x: Reading)
      requires Valid()
      modifies this`histograms, this`readings
      ensures Valid()
      ensures x.value.None? ==> histograms == old(histograms) && readings == old(readings)
      ensures x.value.Some? ==>
                && MetricName(name) in histograms
                && histograms == old(histograms)[MetricName(name) := histograms[MetricName(name)]]
                && readings == old(readings)[MetricName(name) := ReadingsOf(old(readings), name) + [x]]
    {
      if x.value.None? { return; }
      var key := MetricName(name);
      ghost var past := ReadingsOf(readings, name);
      var h := if key in histograms then histograms[key] else EMPTY;
      assert h == ObserveAll(past) && (past + [x])[..|past|] == past;
      h := Update(h, x.value.value, x.bounds);
      histograms := histograms[key := h];
      readings := readings[key := past + [x]];
    }
  }

  ghost function ReadingsOf(readings: map<string, seq<Reading>>, name: string): seq<Reading> {
    if MetricName(name) in readings then readings[MetricName(name)] else []
  }

  /** One finite value: bounds are adopted if there are none, then its bucket is counted up. */
  method Update(h: Histogram, value: real, bounds: seq<real>) returns (r: Histogram)
    requires WellFormed(h)
    ensures r == Observe(h, Reading(Some(value), bounds))
  {
    r := h;
    if r.bounds == [] {
      r := r.(bounds := Arrange(bounds));
      r := r.(buckets := Resize(r.buckets, |r.bounds| + 1));
    }
    r := r.(count := r.count + 1, sum := r.sum + value);
    var i := LowerBound(r.bounds, value);
    r := r.(buckets := r.buckets[i := r.buckets[i] + 1]);
  }
}
