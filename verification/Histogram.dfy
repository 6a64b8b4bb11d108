/** `Histogram.ts` itself: the series objects, updated in place, and the map that finds them by key. */
module Histograms {
  import opened MetricLabels
  import opened HistogramModel

  class Entries {
    var buckets: seq<Bucket>
    var sum: real
    var count: nat

    constructor (bounds: seq<real>)
      ensures Value() == Series(EmptyBuckets(bounds), 0.0, 0)
    {
      buckets, sum, count := EmptyBuckets(bounds), 0.0, 0;
    }

    function Value(): Series
      reads this
    {
      Series(buckets, sum, count)
    }

    method Add(value: real)
      modifies this
      ensures Value() == Record(old(Value()), value)
    {
      sum := sum + value;
      count := count + 1;
      ghost var was := buckets;
      for i := 0 to |buckets|
        invariant |buckets| == |was|
        invariant forall k :: 0 <= k < |was| ==> buckets[k] == if k < i then Counted(was[k], value) else was[k]
        invariant sum == old(sum) + value && count == old(count) + 1
      {
        if value <= buckets[i].le {
          buckets := buckets[i := buckets[i].(count := buckets[i].count + 1)];
        }
      }
      assert buckets == CountedAll(was, value);
    }
  }

  class Histogram {
    const less: (string, string) -> bool
    const bounds: seq<real>
    var data: map<string, Entries>

    /** No two keys share a series object. */
    ghost predicate Valid()
      reads this
    {
      forall k, l :: k in data && l in data && data[k] == data[l] ==> k == l
    }

    ghost function Abs(): map<string, Series>
      reads this, data.Values
    {
      map k | k in data :: data[k].Value()
    }

    constructor (less: (string, string) -> bool, bounds: seq<real>)
      ensures Valid() && Abs() == map[] && this.less == less && this.bounds == bounds
    {
      this.less, this.bounds, data := less, bounds, map[];
    }

    /** Construction with the caller's buckets, or the default ones; non-finite bounds are refused. */
    static method Create(less: (string, string) -> bool, buckets: Option<seq<Number>>) returns (h: Histogram?)
      ensures var given := if buckets.Some? then buckets.value else DefaultBuckets;
        if AllFinite(given) then h != null && fresh(h) && h.Valid() && h.Abs() == map[] && h.bounds == Normalised(given) && h.less == less
        else h == null
    {
      var given := if buckets.Some? then buckets.value else DefaultBuckets;
      if exists b :: b in given && b.NotFinite? { return null; }
      h := new Histogram(less, Normalised(given));
    }

    /** `_entry`: the series under a key, made if missing. */
    method Find(key: string) returns (entry: Entries)
      requires Valid()
      modifies this
      ensures Valid() && key in data && data[key] == entry
      ensures data == old(data)[key := entry]
      ensures key in old(data) ==> entry == old(data)[key]
      ensures key !in old(data) ==> fresh(entry) && entry.Value() == Series(EmptyBuckets(bounds), 0.0, 0)
    {
      if key in data { return data[key]; }
      entry := new Entries(bounds);
      data := data[key := entry];
    }

    method Observe(value: Number, labels: seq<Entry>) returns (result: Result)
      requires Valid()
      modifies this, data.Values
      ensures Valid() && (Abs(), result) == Apply(less, bounds, old(Abs()), Call.Observe(value, labels))
    {
      if value.NotFinite? { return NotFiniteValue; }
      if exists i :: 0 <= i < |labels| && labels[i].name == "le" { return ReservedLabel; }
      hide KeyText, Record;
      var keyed := LabelKey(less, labels);
      if keyed.InvalidLabel? { return BadLabel; }
      Tally(keyed.text, value.value);
      result := Done;
    }

    /** The series under `key`, made if missing, takes one more value; the others keep theirs. */
    method Tally(key: string, v: real)
      requires Valid()
      modifies this, data.Values
      ensures Valid()
      ensures Abs() == old(Abs()[key := Record(if key in Abs() then Abs()[key] else Series(EmptyBuckets(bounds), 0.0, 0), v)])
    {
      hide Record;
      var entry := Find(key);
      entry.Add(v);
    }

    method Remove(labels: seq<Entry>) returns (result: Result)
      requires Valid()
      modifies this
      ensures Valid() && (Abs(), result) == Apply(less, bounds, old(Abs()), Call.Remove(labels))
    {
      hide KeyText, Record;
      var keyed := LabelKey(less, labels);
      if keyed.InvalidLabel? { return BadLabel; }
      result := Removed(keyed.text in data);
      data := data - {keyed.text};
      assert Abs() == old(Abs()) - {keyed.text};
    }

    method Reset()
      modifies this
      ensures Valid() && (Abs(), Done) == Apply(less, bounds, old(Abs()), Call.Reset)
    {
      data := map[];
    }
  }
}
