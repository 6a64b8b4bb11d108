/** `Histogram.ts` over `BaseMetric.ts`: what its series hold, against the observations made of each label set.

    Numbers are reals: a finite number is its value, and sums are exact. */
module HistogramModel {
  import opened MetricLabels

  datatype Option<+T> = None | Some(value: T)
  datatype Number = Finite(value: real) | NotFinite

  // ----- buckets -----

  const DefaultBuckets: seq<Number> := [Finite(1.0), Finite(1.5), Finite(2.0), Finite(5.0), Finite(10.0)]

  predicate AllFinite(bounds: seq<Number>) {
    forall b :: b in bounds ==> b.Finite?
  }

  function InsertBound(b: real, sorted: seq<real>): (r: seq<real>)
    ensures forall x :: x in r <==> x == b || x in sorted
  {
    if sorted == [] || b < sorted[0] then [b] + sorted
    else if b == sorted[0] then sorted
    else [sorted[0]] + InsertBound(b, sorted[1..])
  }

  /** De-duplicated and sorted. */
  function Normalised(bounds: seq<Number>): seq<real>
    requires AllFinite(bounds)
  {
    if bounds == [] then [] else InsertBound(bounds[|bounds| - 1].value, Normalised(bounds[..|bounds| - 1]))
  }

  predicate Rising(bounds: seq<real>) {
    forall i, j :: 0 <= i < j < |bounds| ==> bounds[i] < bounds[j]
  }

  lemma RisesFrom(b: real, rest: seq<real>)
    requires Rising(rest) && forall x :: x in rest ==> b < x
    ensures Rising([b] + rest)
  {
    assert forall j :: 0 < j <= |rest| ==> ([b] + rest)[j] == rest[j - 1] && rest[j - 1] in rest;
  }

  lemma {:induction false} InsertBoundKeepsOrder(b: real, sorted: seq<real>)
    requires Rising(sorted)
    ensures Rising(InsertBound(b, sorted))
  {
    if sorted == [] {
    } else if b < sorted[0] {
      RisesFrom(b, sorted);
    } else if b > sorted[0] {
      InsertBoundKeepsOrder(b, sorted[1..]);
      RisesFrom(sorted[0], InsertBound(b, sorted[1..]));
    }
  }

  /** The configured bounds, each once, in ascending order. */
  lemma {:induction false} NormalisedIsRising(bounds: seq<Number>)
    requires AllFinite(bounds)
    ensures Rising(Normalised(bounds)) && forall x :: x in Normalised(bounds) <==> Finite(x) in bounds
  {
    if bounds != [] {
      var front, last := bounds[..|bounds| - 1], bounds[|bounds| - 1];
      NormalisedIsRising(front);
      InsertBoundKeepsOrder(last.value, Normalised(front));
      forall x ensures Finite(x) in bounds <==> x == last.value || Finite(x) in front {
        assert last == Finite(last.value);
      }
    }
  }

  /** Without bounds of its own, a histogram has these. */
  lemma DefaultBoundsAreThese()
    ensures AllFinite(DefaultBuckets) && Normalised(DefaultBuckets) == [1.0, 1.5, 2.0, 5.0, 10.0]
  {
    NormalisedIsRising(DefaultBuckets);
    hide Normalised;
    OneRisingOnly(Normalised(DefaultBuckets), [1.0, 1.5, 2.0, 5.0, 10.0]);
  }

  lemma FirstIsIn(a: seq<real>)
    ensures a != [] ==> a[0] in a
  {
  }

  lemma {:induction false} OneRisingOnly(a: seq<real>, b: seq<real>)
    requires Rising(a) && Rising(b) && forall x :: x in a <==> x in b
    ensures a == b
  {
    if a == [] {
      FirstIsIn(b);
    } else {
      assert a[0] in b && b != [] && b[0] in a;
      assert a[0] == b[0];
      assert forall k :: 0 < k < |a| ==> a[k] != a[0];
      assert forall k :: 0 < k < |b| ==> b[k] != b[0];
      forall x ensures x in a[1..] <==> x in b[1..] {
        assert x in a <==> x == a[0] || x in a[1..];
        assert x in b <==> x == b[0] || x in b[1..];
      }
      OneRisingOnly(a[1..], b[1..]);
      assert a == [a[0]] + a[1..] && b == [b[0]] + b[1..];
    }
  }

  // ----- one series -----

  datatype Bucket = Bucket(le: real, count: nat)
  datatype Series = Series(buckets: seq<Bucket>, sum: real, count: nat)

  function EmptyBuckets(bounds: seq<real>): (buckets: seq<Bucket>)
    ensures |buckets| == |bounds| && forall i :: 0 <= i < |bounds| ==> buckets[i] == Bucket(bounds[i], 0)
  {
    if bounds == [] then [] else EmptyBuckets(bounds[..|bounds| - 1]) + [Bucket(bounds[|bounds| - 1], 0)]
  }

  function Counted(b: Bucket, v: real): Bucket {
    if v <= b.le then b.(count := b.count + 1) else b
  }

  function CountedAll(buckets: seq<Bucket>, v: real): (r: seq<Bucket>)
    ensures |r| == |buckets| && forall i :: 0 <= i < |r| ==> r[i] == Counted(buckets[i], v)
  {
    if buckets == [] then [] else CountedAll(buckets[..|buckets| - 1], v) + [Counted(buckets[|buckets| - 1], v)]
  }

  function Record(s: Series, v: real): Series {
    Series(CountedAll(s.buckets, v), s.sum + v, s.count + 1)
  }

  // ----- the histogram -----

  datatype Call =
    | Observe(value: Number, labels: seq<Entry>)
    | Remove(labels: seq<Entry>)
    | Reset

  datatype Result = Done | Removed(found: bool) | NotFiniteValue | ReservedLabel | BadLabel

  predicate HasLe(labels: seq<Entry>) {
    exists i :: 0 <= i < |labels| && labels[i].name == "le"
  }

  /** What a call returns, and whether it throws before touching anything. */
  function Apply(less: (string, string) -> bool, bounds: seq<real>, data: map<string, Series>, call: Call): (map<string, Series>, Result) {
    match call
    case Observe(value, labels) =>
      if value.NotFinite? then (data, NotFiniteValue)
      else if HasLe(labels) then (data, ReservedLabel)
      else if !Legal(labels) then (data, BadLabel)
      else
        var key := KeyText(less, labels);
        var series := if key in data then data[key] else Series(EmptyBuckets(bounds), 0.0, 0);
        (data[key := Record(series, value.value)], Done)
    case Remove(labels) =>
      if !Legal(labels) then (data, BadLabel)
      else (data - {KeyText(less, labels)}, Removed(KeyText(less, labels) in data))
    case Reset => (map[], Done)
  }

  function ApplyAll(less: (string, string) -> bool, bounds: seq<real>, calls: seq<Call>): map<string, Series> {
    if calls == [] then map[]
    else Apply(less, bounds, ApplyAll(less, bounds, calls[..|calls| - 1]), calls[|calls| - 1]).0
  }

  // ----- what it stands for -----

  /** The observations of each label set since it was last removed. */
  type Observations = map<Labels, seq<real>>

  ghost function Noted(obs: Observations, call: Call): Observations {
    match call
    case Observe(value, labels) =>
      if value.NotFinite? || HasLe(labels) || !Legal(labels) then obs
      else var of := MapOf(labels); obs[of := (if of in obs then obs[of] else []) + [value.value]]
    case Remove(labels) => if !Legal(labels) then obs else obs - {MapOf(labels)}
    case Reset => map[]
  }

  ghost function NotedAll(calls: seq<Call>): Observations {
    if calls == [] then map[] else Noted(NotedAll(calls[..|calls| - 1]), calls[|calls| - 1])
  }

  /** How many of the observations are at most `b`. */
  ghost function AtMost(values: seq<real>, b: real): nat {
    |Within(values, b)|
  }

  ghost function Within(values: seq<real>, b: real): set<nat> {
    set i: nat | i < |values| && values[i] <= b
  }

  function Sum(values: seq<real>): real {
    if values == [] then 0.0 else Sum(values[..|values| - 1]) + values[|values| - 1]
  }

  /** The series holds exactly these observations: bucket by bucket, in sum, and in number. */
  ghost predicate Holds(s: Series, bounds: seq<real>, values: seq<real>) {
    && s.count == |values| && s.sum == Sum(values) && |s.buckets| == |bounds|
    && forall i :: 0 <= i < |bounds| ==> s.buckets[i] == Bucket(bounds[i], AtMost(values, bounds[i]))
  }

  /** A map from keys to series that agrees with one from label sets to observations. */
  ghost predicate Agree(less: (string, string) -> bool, bounds: seq<real>, data: map<string, Series>, obs: Observations) {
    && (forall labels :: IsRecord(labels) && Legal(labels) ==>
          (KeyText(less, labels) in data <==> MapOf(labels) in obs))
    && (forall labels :: IsRecord(labels) && Legal(labels) && MapOf(labels) in obs ==>
          obs[MapOf(labels)] != [] && Holds(data[KeyText(less, labels)], bounds, obs[MapOf(labels)]))
    && (forall key :: key in data ==> exists labels :: IsRecord(labels) && Legal(labels) && KeyText(less, labels) == key)
  }

  lemma AtMostGrows(values: seq<real>, v: real, b: real)
    ensures AtMost(values + [v], b) == AtMost(values, b) + if v <= b then 1 else 0
    ensures AtMost([], b) == 0
  {
    assert Within([], b) == {};
    if v <= b {
      assert Within(values + [v], b) == Within(values, b) + {|values|};
    } else {
      assert Within(values + [v], b) == Within(values, b);
    }
  }

  lemma RecordHolds(s: Series, bounds: seq<real>, values: seq<real>, v: real)
    requires Holds(s, bounds, values)
    ensures Holds(Record(s, v), bounds, values + [v])
  {
    hide AtMost;
    assert (values + [v])[..|values|] == values;
    forall i | 0 <= i < |bounds| ensures Record(s, v).buckets[i] == Bucket(bounds[i], AtMost(values + [v], bounds[i])) {
      AtMostGrows(values, v, bounds[i]);
    }
  }

  lemma EmptyHolds(bounds: seq<real>)
    ensures Holds(Series(EmptyBuckets(bounds), 0.0, 0), bounds, [])
  {
    hide AtMost;
    forall i | 0 <= i < |bounds| ensures AtMost([], bounds[i]) == 0 { AtMostGrows([], 0.0, bounds[i]); }
  }

  /** Every call takes agreeing states to agreeing states. */
  lemma ApplyAgrees(less: (string, string) -> bool, bounds: seq<real>, data: map<string, Series>, obs: Observations, call: Call)
    requires StrictTotal(less) && Agree(less, bounds, data, obs) && (call.Reset? || IsRecord(call.labels))
    ensures Agree(less, bounds, Apply(less, bounds, data, call).0, Noted(obs, call))
  {
    match call
    case Reset =>
    case Remove(labels) =>
      if Legal(labels) { RemoveAgrees(less, bounds, data, obs, labels); }
      hide KeyText, MapOf, Agree, Legal, IsRecord, StrictTotal;
    case Observe(value, labels) =>
      if value.Finite? && !HasLe(labels) && Legal(labels) { ObserveAgrees(less, bounds, data, obs, value.value, labels); }
      hide KeyText, MapOf, Agree, Legal, IsRecord, StrictTotal;
  }

  lemma KeysOf(less: (string, string) -> bool, labels: seq<Entry>)
    requires StrictTotal(less) && IsRecord(labels) && Legal(labels)
    ensures forall other :: IsRecord(other) && Legal(other) ==>
      (KeyText(less, other) == KeyText(less, labels) <==> MapOf(other) == MapOf(labels))
  {
    forall other | IsRecord(other) && Legal(other)
      ensures KeyText(less, other) == KeyText(less, labels) <==> MapOf(other) == MapOf(labels)
    {
      KeysAreLabels(less, other, labels);
    }
  }

  lemma RemoveAgrees(less: (string, string) -> bool, bounds: seq<real>, data: map<string, Series>, obs: Observations, labels: seq<Entry>)
    requires StrictTotal(less) && Agree(less, bounds, data, obs) && IsRecord(labels) && Legal(labels)
    ensures Agree(less, bounds, data - {KeyText(less, labels)}, obs - {MapOf(labels)})
  {
    hide KeyText, MapOf, Holds, Legal, IsRecord, StrictTotal;
    KeysOf(less, labels);
  }

  lemma ObserveAgrees(less: (string, string) -> bool, bounds: seq<real>, data: map<string, Series>, obs: Observations, v: real, labels: seq<Entry>)
    requires StrictTotal(less) && Agree(less, bounds, data, obs) && IsRecord(labels) && Legal(labels)
    ensures var key, of := KeyText(less, labels), MapOf(labels);
      Agree(less, bounds, data[key := Record(if key in data then data[key] else Series(EmptyBuckets(bounds), 0.0, 0), v)],
            obs[of := (if of in obs then obs[of] else []) + [v]])
  {
    hide KeyText, MapOf, Holds, Legal, IsRecord, Record, EmptyBuckets, StrictTotal;
    EmptyHolds(bounds);
    var key, of := KeyText(less, labels), MapOf(labels);
    var series := if key in data then data[key] else Series(EmptyBuckets(bounds), 0.0, 0);
    var values := if of in obs then obs[of] else [];
    RecordHolds(series, bounds, values, v);
    KeysOf(less, labels);
  }

  // ----- results -----

  ghost predicate Records(calls: seq<Call>) {
    forall c :: c in calls && !c.Reset? ==> IsRecord(c.labels)
  }

  /** After any calls, accepted or not, the histogram is a map from label sets to their observations. */
  lemma {:induction false} HistogramIsItsObservations(less: (string, string) -> bool, bounds: seq<real>, calls: seq<Call>)
    requires StrictTotal(less) && Records(calls)
    ensures Agree(less, bounds, ApplyAll(less, bounds, calls), NotedAll(calls))
  {
    hide Apply, Noted;
    if calls != [] {
      var front := calls[..|calls| - 1];
      assert calls[|calls| - 1] in calls;
      HistogramIsItsObservations(less, bounds, front);
      ApplyAgrees(less, bounds, ApplyAll(less, bounds, front), NotedAll(front), calls[|calls| - 1]);
    }
  }

  lemma {:induction false} AtMostAdds(a: seq<real>, c: seq<real>, b: real)
    ensures AtMost(a + c, b) == AtMost(a, b) + AtMost(c, b)
    decreases |c|
  {
    hide AtMost;
    if c == [] {
      assert a + c == a;
      AtMostGrows([], 0.0, b);
    } else {
      var front, v := c[..|c| - 1], c[|c| - 1];
      AtMostAdds(a, front, b);
      AtMostGrows(a + front, v, b);
      AtMostGrows(front, v, b);
      assert a + c == a + front + [v] && c == front + [v];
    }
  }

  /** What is counted depends on how often each value was observed, not on the order. */
  lemma {:induction false} OnlyHowManyOfEach(values: seq<real>, values': seq<real>, b: real)
    requires multiset(values) == multiset(values')
    ensures AtMost(values, b) == AtMost(values', b)
    decreases |values|
  {
    hide AtMost;
    assert |values| == |multiset(values)| == |multiset(values')| == |values'|;
    if values == [] {
      assert values' == [];
    } else {
      var v := values[|values| - 1];
      var front := values[..|values| - 1];
      assert values == front + [v];
      assert v in multiset(values');
      var left, right := TakenOut(values', v);
      OnlyHowManyOfEach(front, left + right, b);
      AtMostGrows(front, v, b);
      AtMostGrows(left, v, b);
      AtMostAdds(left, right, b);
      AtMostAdds(left + [v], right, b);
    }
  }

  lemma TakenOut(values: seq<real>, v: real) returns (left: seq<real>, right: seq<real>)
    requires v in values
    ensures values == left + [v] + right && multiset(left + right) == multiset(values) - multiset{v}
  {
    var k :| 0 <= k < |values| && values[k] == v;
    left, right := values[..k], values[k + 1..];
    assert values == left + [v] + right;
  }

  /** A rendered bucket line: its bound, none for `+Inf`, and its cumulative count. */
  datatype Line = Line(le: Option<real>, count: nat)

  function BucketLines(buckets: seq<Bucket>): (lines: seq<Line>)
    ensures |lines| == |buckets| && forall i :: 0 <= i < |buckets| ==> lines[i] == Line(Some(buckets[i].le), buckets[i].count)
  {
    if buckets == [] then []
    else BucketLines(buckets[..|buckets| - 1]) + [Line(Some(buckets[|buckets| - 1].le), buckets[|buckets| - 1].count)]
  }

  /** The bucket lines of `__renderSeries`. */
  function RenderSeries(s: Series): seq<Line> {
    BucketLines(s.buckets) + [Line(None, s.count)]
  }

  lemma AtMostRises(values: seq<real>, b: real, c: real)
    requires b <= c
    ensures AtMost(values, b) <= AtMost(values, c) <= |values|
  {
    SizeOfSubset(Within(values, b), Within(values, c));
    AtMostAll(values, c);
  }

  lemma {:induction false} AtMostAll(values: seq<real>, b: real)
    ensures AtMost(values, b) <= |values|
  {
    hide AtMost;
    if values == [] {
      AtMostGrows([], 0.0, b);
    } else {
      var front := values[..|values| - 1];
      AtMostAll(front, b);
      AtMostGrows(front, values[|values| - 1], b);
      assert values == front + [values[|values| - 1]];
    }
  }

  lemma {:induction false} SizeOfSubset(a: set<nat>, b: set<nat>)
    requires a <= b
    ensures |a| <= |b|
  {
    if a != {} {
      var x :| x in a;
      SizeOfSubset(a - {x}, b - {x});
    }
  }

  /** Whatever has been observed, a series renders counts that never fall from one bound to the next and end, at +Inf,
      with the total; and each bound's line counts exactly the values that do not exceed it. */
  lemma RenderedCountsAreCumulative(s: Series, bounds: seq<real>, values: seq<real>)
    requires Rising(bounds) && Holds(s, bounds, values)
    ensures var lines := RenderSeries(s);
      && |lines| == |bounds| + 1
      && (forall i :: 0 <= i < |bounds| ==> lines[i] == Line(Some(bounds[i]), AtMost(values, bounds[i])))
      && lines[|bounds|] == Line(None, |values|)
      && (forall i, j :: 0 <= i < j < |lines| ==> lines[i].count <= lines[j].count)
  {
    hide AtMost;
    var lines := RenderSeries(s);
    forall i, j | 0 <= i < j < |lines| ensures lines[i].count <= lines[j].count {
      if j < |bounds| { AtMostRises(values, bounds[i], bounds[j]); } else { AtMostRises(values, bounds[i], bounds[i]); }
    }
  }

  /** So it is of every series after any calls: a histogram made with any finite bounds renders, for each label set, the
      exact count of its observations up to each bound in ascending order, never falling, and the total at +Inf. */
  lemma EverySeriesRendersItsObservations(less: (string, string) -> bool, given: seq<Number>, calls: seq<Call>, labels: seq<Entry>)
    requires StrictTotal(less) && Records(calls) && AllFinite(given) && IsRecord(labels) && Legal(labels)
    ensures var bounds, data, obs := Normalised(given), ApplyAll(less, Normalised(given), calls), NotedAll(calls);
      && (KeyText(less, labels) in data <==> MapOf(labels) in obs)
      && (MapOf(labels) in obs ==>
            var lines, values := RenderSeries(data[KeyText(less, labels)]), obs[MapOf(labels)];
            && |lines| == |bounds| + 1 && Rising(bounds) && (forall x :: x in bounds <==> Finite(x) in given)
            && (forall i :: 0 <= i < |bounds| ==> lines[i] == Line(Some(bounds[i]), AtMost(values, bounds[i])))
            && lines[|bounds|] == Line(None, |values|)
            && (forall i, j :: 0 <= i < j < |lines| ==> lines[i].count <= lines[j].count))
  {
    hide StrictTotal, Records, AtMost, Holds, RenderSeries, KeyText, MapOf, Legal, IsRecord, Normalised, ApplyAll, NotedAll;
    var bounds := Normalised(given);
    NormalisedIsRising(given);
    HistogramIsItsObservations(less, bounds, calls);
    if MapOf(labels) in NotedAll(calls) {
      RenderedCountsAreCumulative(ApplyAll(less, bounds, calls)[KeyText(less, labels)], bounds, NotedAll(calls)[MapOf(labels)]);
    }
  }

  // ----- what calls return -----

  ghost predicate Named(labels: seq<Entry>, name: string) {
    exists e :: e in labels && e.name == name
  }

  ghost predicate SomeIllegal(labels: seq<Entry>) {
    exists e :: e in labels && !LegalName(e.name)
  }

  /** What an observation returns after any calls, and what is then observed: a value that is not finite is refused first, then
      the label `le`, then an illegal label name; else the label set has the value after those it had. */
  lemma ObserveAnswers(less: (string, string) -> bool, bounds: seq<real>, calls: seq<Call>, value: Number, labels: seq<Entry>)
    ensures var call := Observe(value, labels); var result := Apply(less, bounds, ApplyAll(less, bounds, calls), call).1;
      var before, after := NotedAll(calls), NotedAll(calls + [call]);
      if value == NotFinite then result == NotFiniteValue && after == before
      else if Named(labels, "le") then result == ReservedLabel && after == before
      else if SomeIllegal(labels) then result == BadLabel && after == before
      else
        && result == Done && after.Keys == before.Keys + {MapOf(labels)}
        && (forall other :: other in before && other != MapOf(labels) ==> after[other] == before[other])
        && after[MapOf(labels)] == (if MapOf(labels) in before then before[MapOf(labels)] else []) + [value.value]
  {
    hide KeyText, MapOf, LegalName, Record;
    assert (calls + [Observe(value, labels)])[..|calls|] == calls;
    if HasLe(labels) {
      var i :| 0 <= i < |labels| && labels[i].name == "le";
      assert labels[i] in labels;
    }
  }

  /** `remove` says whether the label set had observations, and then it has none; an illegal name is refused. `reset` leaves no
      label set any. */
  lemma RemoveAnswers(less: (string, string) -> bool, bounds: seq<real>, calls: seq<Call>, labels: seq<Entry>)
    requires StrictTotal(less) && Records(calls) && IsRecord(labels)
    ensures var result := Apply(less, bounds, ApplyAll(less, bounds, calls), Remove(labels)).1;
      var before, after := NotedAll(calls), NotedAll(calls + [Remove(labels)]);
      if SomeIllegal(labels) then result == BadLabel && after == before
      else
        && result == Removed(MapOf(labels) in before) && after.Keys == before.Keys - {MapOf(labels)}
        && forall other :: other in after ==> after[other] == before[other]
    ensures NotedAll(calls + [Reset]) == map[]
  {
    hide KeyText, MapOf, LegalName, IsRecord, Records, StrictTotal;
    assert (calls + [Remove(labels)])[..|calls|] == calls;
    HistogramIsItsObservations(less, bounds, calls);
  }
}
