// The metrics store: counters and histograms per combination of label values, and how they are
// written out.

module Metrics {
  import opened Common
  import opened Sorting
  import opened Exposition

  // ---------- Series keys ----------

  const SEPARATOR: char := 255 as char

  // strings.Join(values, "\xff")
  function Join(values: seq<string>): string {
    if values == [] then [] else if |values| == 1 then values[0] else values[0] + [SEPARATOR] + Join(values[1..])
  }

  // The values in order, with the byte 0xff between them.
  lemma JoinMore(values: seq<string>)
    requires |values| > 0
    ensures Join(values) == if |values| == 1 then values[0] else values[0] + ([255 as char] + Join(values[1..]))
  {
    Associate(values[0], [SEPARATOR], Join(values[1..]));
  }

  predicate SeparatorFree(values: seq<string>) {
    forall i :: 0 <= i < |values| ==> (255 as char) !in values[i]
  }

  lemma {:induction false} JoinSeparators(values: seq<string>)
    requires values != []
    ensures multiset(Join(values))[SEPARATOR] >= |values| - 1
    ensures multiset(Join(values))[SEPARATOR] == |values| - 1 <==> SeparatorFree(values)
  {
    assert SEPARATOR in values[0] <==> SEPARATOR in multiset(values[0]);
    if |values| > 1 {
      JoinSeparators(values[1..]);
      HeadTail(values);
      assert SeparatorFree(values) <==> SEPARATOR !in values[0] && SeparatorFree(values[1..]);
    }
  }

  // Label values without the separator share their key with no other values, whatever those hold.
  lemma {:induction false} JoinInjective(a: seq<string>, b: seq<string>)
    requires |a| == |b| && Join(a) == Join(b) && SeparatorFree(a)
    ensures a == b
  {
    if |a| > 0 {
      JoinSeparators(a);
      JoinSeparators(b);
      HeadTail(a);
      HeadTail(b);
    }
    if |a| > 1 {
      JoinMore(a);
      JoinMore(b);
      Associate(a[0], [SEPARATOR], Join(a[1..]));
      Associate(b[0], [SEPARATOR], Join(b[1..]));
      SplitAt(SEPARATOR, a[0], Join(a[1..]), b[0], Join(b[1..]));
      JoinInjective(a[1..], b[1..]);
    }
  }

  // A separator can move from one value to the next.
  lemma {:induction false} SeparatorMoves(before: seq<string>, u: string, v: string, w: string, after: seq<string>)
    ensures Join(before + [u + [SEPARATOR] + v, w] + after) == Join(before + [u, v + [SEPARATOR] + w] + after)
  {
    var a, b := before + [u + [SEPARATOR] + v, w] + after, before + [u, v + [SEPARATOR] + w] + after;
    if before == [] {
      assert a[1..] == [w] + after && b[1..] == [v + [SEPARATOR] + w] + after;
      JoinHead(v, w, after);
      Associate(u + [SEPARATOR], v, [SEPARATOR] + Join([w] + after));
      Associate(u + [SEPARATOR] + v, [SEPARATOR], Join([w] + after));
    } else {
      SeparatorMoves(before[1..], u, v, w, after);
      assert a[1..] == before[1..] + [u + [SEPARATOR] + v, w] + after;
      assert b[1..] == before[1..] + [u, v + [SEPARATOR] + w] + after;
    }
  }

  lemma JoinHead(v: string, w: string, after: seq<string>)
    ensures Join([v + [SEPARATOR] + w] + after) == v + ([SEPARATOR] + Join([w] + after))
  {
    if after != [] {
      assert ([v + [SEPARATOR] + w] + after)[1..] == after && ([w] + after)[1..] == after;
      Associate(v, [SEPARATOR], w + [SEPARATOR] + Join(after));
      Associate(v + [SEPARATOR], w, [SEPARATOR] + Join(after));
      Associate(v + [SEPARATOR] + w, [SEPARATOR], Join(after));
      Associate(w, [SEPARATOR], Join(after));
    } else {
      assert [w] + after == [w] && [v + [SEPARATOR] + w] + after == [v + [SEPARATOR] + w];
      Associate(v, [SEPARATOR], w);
    }
  }

  // No other label values have the same key.
  ghost predicate HasOwnKey(a: seq<string>) {
    forall b :: |b| == |a| && Join(b) == Join(a) ==> b == a
  }

  // A combination of label values has a series of its own exactly if none of several values holds
  // the separator.
  lemma OwnKeyIffSeparatorFree(a: seq<string>)
    ensures HasOwnKey(a) <==> |a| <= 1 || SeparatorFree(a)
  {
    if SeparatorFree(a) {
      forall b | |b| == |a| && Join(b) == Join(a) ensures b == a {
        JoinInjective(a, b);
      }
    } else if |a| > 1 {
      var i :| 0 <= i < |a| && SEPARATOR in a[i];
      var b := MovedSeparator(a, i);
    }
  }

  lemma MovedSeparator(a: seq<string>, i: nat) returns (b: seq<string>)
    requires |a| > 1 && i < |a| && SEPARATOR in a[i]
    ensures |b| == |a| && Join(b) == Join(a) && b != a
  {
    var k :| 0 <= k < |a[i]| && a[i][k] == SEPARATOR;
    var u, v := a[i][..k], a[i][k + 1..];
    assert a[i] == u + [SEPARATOR] + v;
    if i + 1 < |a| {
      var w := a[i + 1];
      SeparatorMoves(a[..i], u, v, w, a[i + 2..]);
      b := a[..i] + [u, v + [SEPARATOR] + w] + a[i + 2..];
      assert a == a[..i] + [a[i], w] + a[i + 2..];
      assert |b[i]| < |a[i]|;
    } else {
      var t := a[i - 1];
      SeparatorMoves(a[..i - 1], t, u, v, a[i + 1..]);
      b := a[..i - 1] + [t + [SEPARATOR] + u, v] + a[i + 1..];
      assert a == a[..i - 1] + [t, a[i]] + a[i + 1..];
      assert |b[i - 1]| > |a[i - 1]|;
    }
  }

  function Labels(names: seq<string>, values: seq<string>): (labels: seq<Label>)
    requires |names| == |values|
    ensures |labels| == |names|
    ensures forall i :: 0 <= i < |names| ==> labels[i] == Label(names[i], values[i])
  {
    if names == [] then [] else [Label(names[0], values[0])] + Labels(names[1..], values[1..])
  }

  // ---------- Writing ----------

  // strings.Builder
  class Builder {
    var text: string

    constructor ()
      ensures text == []
    {
      text := [];
    }

    // start and done split what is there, for the callers that write a text piece by piece.
    method WriteString(s: string, ghost start: string, ghost done: string)
      requires text == start + done
      modifies this
      ensures text == start + (done + s)
    {
      Associate(start, done, s);
      text := text + s;
    }
  }

  method WriteMetricHeader(builder: Builder, name: string, help: string, kind: string)
    modifies builder
    ensures builder.text == old(builder.text) + HeaderText(name, help, kind)
  {
    ghost var start, help1 := builder.text, "# HELP " + name + " " + EscapeHelp(help) + "\n";
    builder.WriteString("# HELP ", start, "");
    builder.WriteString(name, start, "# HELP ");
    builder.WriteString(" ", start, "# HELP " + name);
    builder.WriteString(EscapeHelp(help), start, "# HELP " + name + " ");
    builder.WriteString("\n", start, "# HELP " + name + " " + EscapeHelp(help));
    builder.WriteString("# TYPE ", start, help1);
    builder.WriteString(name, start, help1 + "# TYPE ");
    builder.WriteString(" ", start, help1 + "# TYPE " + name);
    builder.WriteString(kind, start, help1 + "# TYPE " + name + " ");
    builder.WriteString("\n", start, help1 + "# TYPE " + name + " " + kind);
  }

  // The labels up to i as the loop of writeSample has written them.
  function LabelsSoFar(labels: seq<Label>, i: nat): string
    requires i <= |labels|
  {
    if i == 0 then "" else LabelsSoFar(labels, i - 1) + (if i == 1 then "" else ",") + LabelText(labels[i - 1])
  }

  lemma {:induction false} LabelsSoFarIsText(labels: seq<Label>, i: nat)
    requires 0 < i <= |labels|
    ensures LabelsText(labels) == LabelsSoFar(labels, i) + (if i == |labels| then "" else "," + LabelsText(labels[i..]))
  {
    if i == 1 {
      assert LabelsSoFar(labels, 1) == LabelText(labels[0]);
    } else {
      LabelsSoFarIsText(labels, i - 1);
      var rest := labels[i - 1..];
      assert rest[0] == labels[i - 1] && rest[1..] == labels[i..];
      var done, one := LabelsSoFar(labels, i - 1), LabelText(labels[i - 1]);
      var tail := if i == |labels| then "" else "," + LabelsText(labels[i..]);
      assert LabelsText(rest) == one + tail;
      Associate(done, ",", one);
      Associate(done, "," + one, tail);
      Associate(",", one, tail);
    }
  }

  method WriteLabel(builder: Builder, name: string, value: string)
    modifies builder
    ensures builder.text == old(builder.text) + LabelText(Label(name, value))
  {
    ghost var start := builder.text;
    builder.WriteString(name, start, "");
    builder.WriteString("=\"", start, name);
    builder.WriteString(EscapeLabelValue(value), start, name + "=\"");
    builder.WriteString("\"", start, name + "=\"" + EscapeLabelValue(value));
  }

  // The loop of writeSample over the labels.
  method WriteLabels(builder: Builder, labelNames: seq<string>, labelValues: seq<string>)
    requires |labelNames| == |labelValues| > 0
    modifies builder
    ensures builder.text == old(builder.text) + LabelsText(Labels(labelNames, labelValues))
  {
    ghost var start, labels := builder.text, Labels(labelNames, labelValues);
    var i := 0;
    while i < |labelNames|
      invariant 0 <= i <= |labelNames|
      invariant builder.text == start + LabelsSoFar(labels, i)
    {
      WriteNextLabel(builder, i > 0, labelNames[i], labelValues[i], start, LabelsSoFar(labels, i));
      OneMoreLabel(labels, i);
      i := i + 1;
    }
    LabelsSoFarIsText(labels, i);
  }

  lemma OneMoreLabel(labels: seq<Label>, i: nat)
    requires i < |labels|
    ensures LabelsSoFar(labels, i + 1) == LabelsSoFar(labels, i) + (if i > 0 then "," else "") + LabelText(labels[i])
  {
  }

  method WriteNextLabel(builder: Builder, more: bool, name: string, value: string, ghost start: string, ghost done: string)
    requires builder.text == start + done
    modifies builder
    ensures builder.text == start + (done + (if more then "," else "") + LabelText(Label(name, value)))
  {
    ghost var separated := done + (if more then "," else "");
    if more {
      builder.WriteString(",", start, done);
    }
    WriteLabel(builder, name, value);
    Associate(start, separated, LabelText(Label(name, value)));
  }

  method WriteSample(builder: Builder, name: string, labelNames: seq<string>, labelValues: seq<string>, token: string)
    requires |labelNames| == |labelValues|
    modifies builder
    ensures builder.text == old(builder.text) + SampleText(Sample(name, Labels(labelNames, labelValues), token))
  {
    ghost var start, done := builder.text, name;
    builder.WriteString(name, start, "");
    if |labelNames| > 0 {
      ghost var labels := LabelsText(Labels(labelNames, labelValues));
      builder.WriteString("{", start, name);
      WriteLabels(builder, labelNames, labelValues);
      Associate(start, name + "{", labels);
      builder.WriteString("}", start, name + "{" + labels);
      done := name + "{" + labels + "}";
      assert done == name + ("{" + labels + "}");
    }
    builder.WriteString(" ", start, done);
    builder.WriteString(token, start, done + " ");
    builder.WriteString("\n", start, done + " " + token);
  }

  // ---------- Listings of samples ----------

  // order lists the series keys the way sort.Slice leaves them; there is only one such order.
  ghost predicate Lists(order: seq<string>, keys: set<string>) {
    StrictlySorted(order) && InByteOrder(order) && forall k :: k in order <==> k in keys
  }

  lemma ListingIsUnique(a: seq<string>, b: seq<string>, keys: set<string>)
    requires Lists(a, keys) && Lists(b, keys)
    ensures a == b
  {
    SortedListingIsUnique(a, b);
  }

  lemma {:induction false} SamplesTextAppend(a: seq<Sample>, b: seq<Sample>)
    ensures SamplesText(a + b) == SamplesText(a) + SamplesText(b)
  {
    if a == [] {
      assert a + b == b;
    } else {
      SamplesTextAppend(a[1..], b);
      FirstSample(a[0], a[1..] + b);
      HeadTailAppend(a, b);
      Associate(SampleText(a[0]), SamplesText(a[1..]), SamplesText(b));
    }
  }

  lemma HeadTailAppend<T>(a: seq<T>, b: seq<T>)
    requires a != []
    ensures [a[0]] + (a[1..] + b) == a + b
  {
  }

  lemma SamplesTextOne(s: Sample)
    ensures SamplesText([s]) == SampleText(s)
  {
    assert [s][1..] == [];
  }

  // ---------- Counters ----------

  datatype CounterSeries = CounterSeries(labelValues: seq<string>, value: real)

  predicate CounterOK(labelNames: seq<string>, series: map<string, CounterSeries>) {
    forall k :: k in series ==> |series[k].labelValues| == |labelNames| && k == Join(series[k].labelValues)
  }

  // One sample for every series, in the given order.
  function CounterSamples(name: string, labelNames: seq<string>, series: map<string, CounterSeries>,
                          order: seq<string>, format: real -> string): seq<Sample>
    requires CounterOK(labelNames, series) && forall k :: k in order ==> k in series
  {
    if order == [] then []
    else
      var c := series[order[0]];
      [Sample(name, Labels(labelNames, c.labelValues), format(c.value))]
      + CounterSamples(name, labelNames, series, order[1..], format)
  }

  class CounterVec {
    const name: string
    const help: string
    const labelNames: seq<string>
    var series: map<string, CounterSeries>

    predicate Valid()
      reads this
    {
      CounterOK(labelNames, series)
    }

    constructor (name: string, help: string, labelNames: seq<string>)
      ensures Valid() && series == map[] && this.name == name && this.help == help && this.labelNames == labelNames
    {
      this.name, this.help, this.labelNames, series := name, help, labelNames, map[];
    }

    // Panics on a negative value or a wrong number of label values.
    method Add(value: real, labelValues: seq<string>)
      requires Valid() && value >= 0.0 && |labelValues| == |labelNames|
      modifies this`series
      ensures Valid()
      ensures var key := Join(labelValues);
              series == old(series)[key :=
                if key in old(series) then old(series)[key].(value := old(series)[key].value + value)
                else CounterSeries(labelValues, value)]
    {
      var key := Join(labelValues);
      if key !in series {
        series := series[key := CounterSeries(labelValues, 0.0)];
      }
      series := series[key := series[key].(value := series[key].value + value)];
    }

    method WritePrometheus(builder: Builder, format: real -> string) returns (ghost order: seq<string>)
      requires Valid()
      modifies builder
      ensures Lists(order, series.Keys)
      ensures builder.text == old(builder.text)
                + FamilyText(Family(name, help, "counter", CounterSamples(name, labelNames, series, order, format)))
    {
      ghost var start, header := builder.text, HeaderText(name, help, "counter");
      WriteMetricHeader(builder, name, help, "counter");
      var keys := SortedKeys(series.Keys);
      order := keys;
      ghost var all := CounterSamples(name, labelNames, series, keys, format);
      var i := 0;
      while i < |keys|
        invariant 0 <= i <= |keys|
        invariant builder.text + SamplesText(CounterSamples(name, labelNames, series, keys[i..], format))
                  == start + header + SamplesText(all)
      {
        var c := series[keys[i]];
        ghost var before, rest := builder.text, CounterSamples(name, labelNames, series, keys[i + 1..], format);
        ghost var sample := Sample(name, Labels(labelNames, c.labelValues), format(c.value));
        assert keys[i..][0] == keys[i] && keys[i..][1..] == keys[i + 1..];
        FirstSample(sample, rest);
        WriteSample(builder, name, labelNames, c.labelValues, format(c.value));
        Associate(before, SampleText(sample), SamplesText(rest));
        i := i + 1;
      }
      assert keys[i..] == [];
      Associate(start, header, SamplesText(all));
    }
  }

  lemma FirstSample(s: Sample, rest: seq<Sample>)
    ensures SamplesText([s] + rest) == SampleText(s) + SamplesText(rest)
  {
    assert ([s] + rest)[1..] == rest;
  }

  // ---------- Histograms ----------

  // uint64 arithmetic
  const WRAP: nat := 0x1_0000_0000_0000_0000

  function CountAtMost(observed: seq<real>, bound: real): nat {
    if observed == [] then 0
    else CountAtMost(observed[..|observed| - 1], bound) + (if Last(observed) <= bound then 1 else 0)
  }

  function Sum(observed: seq<real>): real {
    if observed == [] then 0.0 else Sum(observed[..|observed| - 1]) + Last(observed)
  }

  // The positions of the values that are at most the bound.
  function AtMost(observed: seq<real>, bound: real): set<int> {
    set i | 0 <= i < |observed| && observed[i] <= bound
  }

  lemma {:induction false} CountAtMostCounts(observed: seq<real>, bound: real)
    ensures CountAtMost(observed, bound) == |AtMost(observed, bound)|
    decreases |observed|
  {
    if observed != [] {
      var n := |observed| - 1;
      CountAtMostCounts(observed[..n], bound);
      assert AtMost(observed, bound) == AtMost(observed[..n], bound) + (if observed[n] <= bound then {n} else {});
    }
  }

  lemma NothingObserved()
    ensures Sum([]) == 0.0
  {
  }

  lemma ObserveOneMore(observed: seq<real>, value: real, bound: real)
    ensures CountAtMost(observed + [value], bound) == CountAtMost(observed, bound) + (if value <= bound then 1 else 0)
    ensures Sum(observed + [value]) == Sum(observed) + value
  {
    assert (observed + [value])[..|observed|] == observed;
  }

  lemma WrappedIncrement(n: nat)
    ensures (n % WRAP + 1) % WRAP == (n + 1) % WRAP
  {
  }

  // What a series holds after these observations.
  datatype HistogramState = HistogramState(labelValues: seq<string>, buckets: seq<nat>, count: nat, sum: real)

  predicate Counts(h: HistogramState, bounds: seq<real>, observed: seq<real>) {
    && |h.buckets| == |bounds|
    && (forall i :: 0 <= i < |bounds| ==> h.buckets[i] == CountAtMost(observed, bounds[i]) % WRAP)
    && h.count == |observed| % WRAP
    && h.sum == Sum(observed)
  }

  class HistogramSeries {
    const labelValues: seq<string>
    const buckets: array<nat>
    var count: nat
    var sum: real
    ghost var observed: seq<real>

    function State(): HistogramState
      reads this, buckets
    {
      HistogramState(labelValues, buckets[..], count, sum)
    }

    ghost predicate Valid(bounds: seq<real>)
      reads this, buckets
    {
      Counts(State(), bounds, observed)
    }

    constructor (labelValues: seq<string>, bounds: seq<real>)
      ensures Valid(bounds) && observed == [] && this.labelValues == labelValues && fresh(buckets)
    {
      this.labelValues, count, sum, observed := labelValues, 0, 0.0, [];
      buckets := new nat[|bounds|](_ => 0);
    }

    // The body of Observe for one series.
    method Record(value: real, bounds: seq<real>)
      requires Valid(bounds)
      modifies this, buckets
      ensures Valid(bounds) && observed == old(observed) + [value]
    {
      WrappedIncrement(|observed|);
      ObserveOneMore(observed, value, 0.0);
      count := (count + 1) % WRAP;
      sum := sum + value;
      CountInBuckets(value, bounds, observed);
      observed := observed + [value];
    }

    // The loop of Observe over the buckets.
    method CountInBuckets(value: real, bounds: seq<real>, ghost before: seq<real>)
      requires |bounds| == buckets.Length
      requires forall k :: 0 <= k < |bounds| ==> buckets[k] == CountAtMost(before, bounds[k]) % WRAP
      modifies buckets
      ensures forall k :: 0 <= k < |bounds| ==> buckets[k] == CountAtMost(before + [value], bounds[k]) % WRAP
    {
      var i := 0;
      while i < |bounds|
        invariant 0 <= i <= |bounds|
        invariant forall k :: 0 <= k < i ==> buckets[k] == CountAtMost(before + [value], bounds[k]) % WRAP
        invariant forall k :: i <= k < |bounds| ==> buckets[k] == CountAtMost(before, bounds[k]) % WRAP
      {
        ObserveOneMore(before, value, bounds[i]);
        WrappedIncrement(CountAtMost(before, bounds[i]));
        if value <= bounds[i] {
          buckets[i] := (buckets[i] + 1) % WRAP;
        }
        i := i + 1;
      }
    }
  }

  predicate Ascending(bounds: seq<real>) {
    forall i, j :: 0 <= i < j < |bounds| ==> bounds[i] <= bounds[j]
  }

  // sort.Float64s
  function InsertBound(bounds: seq<real>, b: real): (r: seq<real>)
    requires Ascending(bounds)
    ensures Ascending(r) && forall x :: x in r ==> x == b || x in bounds
  {
    if bounds == [] then [b]
    else if b <= bounds[0] then [b] + bounds
    else
      var rest := InsertBound(bounds[1..], b);
      FirstIsLeast(bounds);
      PrependBound(bounds[0], rest);
      [bounds[0]] + rest
  }

  lemma FirstIsLeast(bounds: seq<real>)
    requires bounds != [] && Ascending(bounds)
    ensures forall x :: x in bounds ==> bounds[0] <= x
    ensures bounds == [bounds[0]] + bounds[1..]
  {
  }

  lemma PrependBound(b: real, rest: seq<real>)
    requires Ascending(rest) && forall x :: x in rest ==> b <= x
    ensures Ascending([b] + rest)
  {
    forall i, j | 0 <= i < j < |[b] + rest| ensures ([b] + rest)[i] <= ([b] + rest)[j] {
      assert rest[j - 1] in rest;
    }
  }

  lemma {:induction false} InsertBoundAdds(bounds: seq<real>, b: real)
    requires Ascending(bounds)
    ensures multiset(InsertBound(bounds, b)) == multiset(bounds) + multiset{b}
  {
    if bounds != [] && bounds[0] < b {
      InsertBoundAdds(bounds[1..], b);
      HeadTail(bounds);
    }
  }

  method SortBounds(buckets: seq<real>) returns (bounds: seq<real>)
    ensures Ascending(bounds) && multiset(bounds) == multiset(buckets)
  {
    bounds := [];
    var i := 0;
    while i < |buckets|
      invariant 0 <= i <= |buckets| && Ascending(bounds) && multiset(bounds) == multiset(buckets[..i])
    {
      InsertBoundAdds(bounds, buckets[i]);
      bounds := InsertBound(bounds, buckets[i]);
      assert buckets[..i + 1] == buckets[..i] + [buckets[i]];
      i := i + 1;
    }
    assert buckets[..i] == buckets;
  }

  lemma {:induction false} CountAtMostMonotone(observed: seq<real>, a: real, b: real)
    requires a <= b
    ensures CountAtMost(observed, a) <= CountAtMost(observed, b) <= |observed|
    decreases |observed|
  {
    if observed != [] {
      CountAtMostMonotone(observed[..|observed| - 1], a, b);
    }
  }

  // Along ascending bounds the buckets never decrease and never exceed the count, as long as fewer
  // than 2^64 values were observed.
  lemma BucketsAreCumulative(h: HistogramState, bounds: seq<real>, observed: seq<real>)
    requires Counts(h, bounds, observed) && Ascending(bounds) && |observed| < 0x1_0000_0000_0000_0000
    ensures forall i, j :: 0 <= i < j < |bounds| ==> h.buckets[i] <= h.buckets[j]
    ensures forall i :: 0 <= i < |bounds| ==> h.buckets[i] == CountAtMost(observed, bounds[i]) <= h.count
  {
    forall i | 0 <= i < |bounds| ensures h.buckets[i] == CountAtMost(observed, bounds[i]) <= h.count {
      CountAtMostMonotone(observed, bounds[i], bounds[i]);
    }
    forall i, j | 0 <= i < j < |bounds| ensures h.buckets[i] <= h.buckets[j] {
      CountAtMostMonotone(observed, bounds[i], bounds[j]);
    }
  }

  // ---------- Histogram text ----------

  function BucketSample(name: string, labelNames: seq<string>, h: HistogramState, le: string, count: nat,
                        format: real -> string): Sample
    requires |labelNames| == |h.labelValues|
  {
    Sample(name + "_bucket", Labels(labelNames + ["le"], h.labelValues + [le]), format(count as real))
  }

  // The bucket samples from bound i on.
  function BucketSamples(name: string, labelNames: seq<string>, h: HistogramState, bounds: seq<real>, i: nat,
                         format: real -> string): seq<Sample>
    requires |labelNames| == |h.labelValues| && |h.buckets| == |bounds| && i <= |bounds|
    decreases |bounds| - i
  {
    if i == |bounds| then []
    else [BucketSample(name, labelNames, h, format(bounds[i]), h.buckets[i], format)]
         + BucketSamples(name, labelNames, h, bounds, i + 1, format)
  }

  function SummarySamples(name: string, labelNames: seq<string>, h: HistogramState, format: real -> string): seq<Sample>
    requires |labelNames| == |h.labelValues|
  {
    [BucketSample(name, labelNames, h, "+Inf", h.count, format),
     Sample(name + "_sum", Labels(labelNames, h.labelValues), format(h.sum)),
     Sample(name + "_count", Labels(labelNames, h.labelValues), format(h.count as real))]
  }

  function SeriesSamples(name: string, labelNames: seq<string>, h: HistogramState, bounds: seq<real>,
                         format: real -> string): seq<Sample>
    requires |labelNames| == |h.labelValues| && |h.buckets| == |bounds|
  {
    BucketSamples(name, labelNames, h, bounds, 0, format) + SummarySamples(name, labelNames, h, format)
  }

  predicate HistogramOK(labelNames: seq<string>, bounds: seq<real>, series: map<string, HistogramState>) {
    forall k :: k in series ==>
      |series[k].labelValues| == |labelNames| && |series[k].buckets| == |bounds| && k == Join(series[k].labelValues)
  }

  function HistogramSamples(name: string, labelNames: seq<string>, series: map<string, HistogramState>, bounds: seq<real>,
                            order: seq<string>, format: real -> string): seq<Sample>
    requires HistogramOK(labelNames, bounds, series) && forall k :: k in order ==> k in series
  {
    if order == [] then []
    else SeriesSamples(name, labelNames, series[order[0]], bounds, format)
         + HistogramSamples(name, labelNames, series, bounds, order[1..], format)
  }

  method WriteBuckets(builder: Builder, name: string, labelNames: seq<string>, h: HistogramState, bounds: seq<real>,
                      format: real -> string)
    requires |labelNames| == |h.labelValues| && |h.buckets| == |bounds|
    modifies builder
    ensures builder.text == old(builder.text) + SamplesText(BucketSamples(name, labelNames, h, bounds, 0, format))
  {
    ghost var all := SamplesText(BucketSamples(name, labelNames, h, bounds, 0, format));
    var i := 0;
    while i < |bounds|
      invariant 0 <= i <= |bounds|
      invariant builder.text + SamplesText(BucketSamples(name, labelNames, h, bounds, i, format)) == old(builder.text) + all
    {
      ghost var before := builder.text;
      ghost var sample := BucketSample(name, labelNames, h, format(bounds[i]), h.buckets[i], format);
      ghost var rest := BucketSamples(name, labelNames, h, bounds, i + 1, format);
      FirstSample(sample, rest);
      WriteSample(builder, name + "_bucket", labelNames + ["le"], h.labelValues + [format(bounds[i])],
                  format(h.buckets[i] as real));
      Associate(before, SampleText(sample), SamplesText(rest));
      i := i + 1;
    }
  }

  lemma SummaryText(a: Sample, b: Sample, c: Sample)
    ensures SamplesText([a, b, c]) == SampleText(a) + SampleText(b) + SampleText(c)
  {
    SamplesTextOne(c);
    FirstSample(b, [c]);
    FirstSample(a, [b, c]);
    assert [a] + [b, c] == [a, b, c] && [b] + [c] == [b, c];
    Associate(SampleText(a), SampleText(b), SampleText(c));
  }

  method WriteSummary(builder: Builder, name: string, labelNames: seq<string>, h: HistogramState, format: real -> string)
    requires |labelNames| == |h.labelValues|
    modifies builder
    ensures builder.text == old(builder.text) + SamplesText(SummarySamples(name, labelNames, h, format))
  {
    ghost var start, three := builder.text, SummarySamples(name, labelNames, h, format);
    ghost var a, b, c := SampleText(three[0]), SampleText(three[1]), SampleText(three[2]);
    WriteSample(builder, name + "_bucket", labelNames + ["le"], h.labelValues + ["+Inf"], format(h.count as real));
    WriteSample(builder, name + "_sum", labelNames, h.labelValues, format(h.sum));
    Associate(start, a, b);
    WriteSample(builder, name + "_count", labelNames, h.labelValues, format(h.count as real));
    Associate(start, a + b, c);
    SummaryText(three[0], three[1], three[2]);
  }

  method WriteSeries(builder: Builder, name: string, labelNames: seq<string>, h: HistogramState, bounds: seq<real>,
                     format: real -> string)
    requires |labelNames| == |h.labelValues| && |h.buckets| == |bounds|
    modifies builder
    ensures builder.text == old(builder.text) + SamplesText(SeriesSamples(name, labelNames, h, bounds, format))
  {
    ghost var start := builder.text;
    ghost var buckets := BucketSamples(name, labelNames, h, bounds, 0, format);
    ghost var summary := SummarySamples(name, labelNames, h, format);
    WriteBuckets(builder, name, labelNames, h, bounds, format);
    WriteSummary(builder, name, labelNames, h, format);
    Associate(start, SamplesText(buckets), SamplesText(summary));
    SamplesTextAppend(buckets, summary);
  }

  // The loop of writePrometheus over the sorted copies.
  method WriteAllSeries(builder: Builder, name: string, labelNames: seq<string>, states: map<string, HistogramState>,
                        bounds: seq<real>, keys: seq<string>, format: real -> string)
    requires HistogramOK(labelNames, bounds, states) && forall k :: k in keys ==> k in states
    modifies builder
    ensures builder.text == old(builder.text) + SamplesText(HistogramSamples(name, labelNames, states, bounds, keys, format))
  {
    ghost var start := builder.text;
    ghost var all := HistogramSamples(name, labelNames, states, bounds, keys, format);
    var i := 0;
    while i < |keys|
      invariant 0 <= i <= |keys|
      invariant builder.text + SamplesText(HistogramSamples(name, labelNames, states, bounds, keys[i..], format))
                == start + SamplesText(all)
    {
      var h := states[keys[i]];
      ghost var before := builder.text;
      ghost var one := SeriesSamples(name, labelNames, h, bounds, format);
      ghost var rest := HistogramSamples(name, labelNames, states, bounds, keys[i + 1..], format);
      assert keys[i..][0] == keys[i] && keys[i..][1..] == keys[i + 1..];
      SamplesTextAppend(one, rest);
      WriteSeries(builder, name, labelNames, h, bounds, format);
      Associate(before, SamplesText(one), SamplesText(rest));
      i := i + 1;
    }
    assert keys[i..] == [];
  }

  class HistogramVec {
    const name: string
    const help: string
    const labelNames: seq<string>
    const bounds: seq<real>
    var series: map<string, HistogramSeries>

    ghost function Repr(): set<object>
      reads this
    {
      (set k | k in series :: series[k] as object) + (set k | k in series :: series[k].buckets as object)
    }

    ghost predicate Valid()
      reads this, Repr()
    {
      && Ascending(bounds)
      && (forall k :: k in series ==>
            && |series[k].labelValues| == |labelNames| && k == Join(series[k].labelValues)
            && series[k].Valid(bounds))
      && (forall k, l :: k in series && l in series && k != l ==>
            series[k] != series[l] && series[k].buckets != series[l].buckets)
    }

    // Panics without buckets.
    constructor (name: string, help: string, buckets: seq<real>, labelNames: seq<string>)
      requires buckets != []
      ensures Valid() && series == map[] && multiset(bounds) == multiset(buckets)
      ensures this.name == name && this.help == help && this.labelNames == labelNames
    {
      var sorted := SortBounds(buckets);
      this.name, this.help, this.labelNames, bounds, series := name, help, labelNames, sorted, map[];
    }

    // Panics on a wrong number of label values.
    method Observe(value: real, labelValues: seq<string>)
      requires Valid() && |labelValues| == |labelNames|
      modifies this`series, Repr()
      ensures Valid() && series.Keys == old(series).Keys + {Join(labelValues)}
      ensures forall k :: k in series ==>
                series[k].observed == (if k in old(series) then old(series[k].observed) else [])
                                      + (if k == Join(labelValues) then [value] else [])
      ensures forall k :: k in old(series) ==> series[k] == old(series)[k]
      ensures Join(labelValues) !in old(series) ==> series[Join(labelValues)].labelValues == labelValues
    {
      var key := Join(labelValues);
      if key !in series {
        AddSeries(key, labelValues);
      }
      RecordIn(key, value);
    }

    method AddSeries(key: string, labelValues: seq<string>)
      requires Valid() && |labelValues| == |labelNames| && key == Join(labelValues) && key !in series
      modifies this`series
      ensures Valid() && series.Keys == old(series).Keys + {key} && fresh(series[key]) && fresh(series[key].buckets)
      ensures series[key].observed == [] && series[key].labelValues == labelValues
      ensures forall k :: k in old(series) ==> series[k] == old(series)[k]
    {
      var s := new HistogramSeries(labelValues, bounds);
      series := series[key := s];
    }

    method RecordIn(key: string, value: real)
      requires Valid() && key in series
      modifies series[key], series[key].buckets
      ensures Valid() && series[key].observed == old(series[key].observed) + [value]
    {
      series[key].Record(value, bounds);
    }
  
    // What writePrometheus copies under the read lock.
    function States(): (states: map<string, HistogramState>)
      requires Valid()
      reads this, Repr()
      ensures HistogramOK(labelNames, bounds, states)
      ensures states.Keys == series.Keys && forall k :: k in states ==> Counts(states[k], bounds, series[k].observed)
    {
      map k | k in series :: series[k].State()
    }

    method WritePrometheus(builder: Builder, format: real -> string) returns (ghost order: seq<string>)
      requires Valid()
      modifies builder
      ensures Lists(order, old(States()).Keys)
      ensures builder.text == old(builder.text) + FamilyText(Family(name, help, "histogram",
                HistogramSamples(name, labelNames, old(States()), bounds, order, format)))
    {
      ghost var start, header := builder.text, HeaderText(name, help, "histogram");
      var states := States();
      WriteMetricHeader(builder, name, help, "histogram");
      var keys := SortedKeys(states.Keys);
      order := keys;
      WriteAllSeries(builder, name, labelNames, states, bounds, keys, format);
      Associate(start, header, SamplesText(HistogramSamples(name, labelNames, states, bounds, keys, format)));
    }
  }

  // ---------- What a scraper reads ----------

  ghost predicate Printable(name: string, labelNames: seq<string>, format: real -> string) {
    && IsName(name) && (forall i :: 0 <= i < |labelNames| ==> IsName(labelNames[i]))
    && forall x :: NoneOf(format(x), "\n")
  }

  lemma FamilyReadsBack(f: Family)
    requires FamilyOK(f)
    ensures ParseFamilies(FamilyText(f)) == Done([f], [])
  {
    OneFamilyText(f);
    ExpositionRoundTrip([f]);
  }

  lemma OneFamilyText(f: Family)
    ensures FamiliesText([f]) == FamilyText(f)
  {
    assert [f][1..] == [];
  }

  lemma {:induction false} CounterSamplesAt(name: string, labelNames: seq<string>, series: map<string, CounterSeries>,
                                            order: seq<string>, format: real -> string, i: nat)
    requires CounterOK(labelNames, series) && (forall k :: k in order ==> k in series) && i < |order|
    ensures var samples, c := CounterSamples(name, labelNames, series, order, format), series[order[i]];
            |samples| == |order| && samples[i] == Sample(name, Labels(labelNames, c.labelValues), format(c.value))
    decreases |order|
  {
    if i > 0 {
      CounterSamplesAt(name, labelNames, series, order[1..], format, i - 1);
    } else if |order| > 1 {
      CounterSamplesAt(name, labelNames, series, order[1..], format, 0);
    }
  }

  // Parsing the text of a counter gives one sample per series, with its label values and its value,
  // in an order that depends on nothing but the series.
  lemma CounterReadsBack(name: string, help: string, labelNames: seq<string>, series: map<string, CounterSeries>,
                         order: seq<string>, order': seq<string>, format: real -> string)
    requires CounterOK(labelNames, series) && Printable(name, labelNames, format)
    requires Lists(order, series.Keys) && Lists(order', series.Keys)
    ensures order == order'
    ensures var samples := CounterSamples(name, labelNames, series, order, format);
            var f := Family(name, help, "counter", samples);
            && ParseFamilies(FamilyText(f)) == Done([f], [])
            && |samples| == |order|
            && forall i :: 0 <= i < |order| ==>
                 samples[i] == Sample(name, Labels(labelNames, series[order[i]].labelValues), format(series[order[i]].value))
  {
    ListingIsUnique(order, order', series.Keys);
    var samples := CounterSamples(name, labelNames, series, order, format);
    if order != [] {
      CounterSamplesAt(name, labelNames, series, order, format, 0);
    }
    forall i | 0 <= i < |order|
      ensures samples[i] == Sample(name, Labels(labelNames, series[order[i]].labelValues), format(series[order[i]].value))
    {
      CounterSamplesAt(name, labelNames, series, order, format, i);
    }
    FamilyReadsBack(Family(name, help, "counter", samples));
  }

  lemma {:induction false} BucketSamplesAt(name: string, labelNames: seq<string>, h: HistogramState, bounds: seq<real>,
                                           i: nat, format: real -> string, j: nat)
    requires |labelNames| == |h.labelValues| && |h.buckets| == |bounds| && i <= j < |bounds|
    ensures var samples := BucketSamples(name, labelNames, h, bounds, i, format);
            |samples| == |bounds| - i && samples[j - i] == BucketSample(name, labelNames, h, format(bounds[j]), h.buckets[j], format)
    decreases |bounds| - i
  {
    if i < j {
      BucketSamplesAt(name, labelNames, h, bounds, i + 1, format, j);
    } else if i + 1 < |bounds| {
      BucketSamplesAt(name, labelNames, h, bounds, i + 1, format, i + 1);
    }
  }

  // What is printed for one series: bucket j shows how many values were at most bound j.
  lemma SeriesShowsObservations(name: string, labelNames: seq<string>, h: HistogramState, bounds: seq<real>,
                                observed: seq<real>, format: real -> string, j: nat)
    requires |labelNames| == |h.labelValues| && Counts(h, bounds, observed) && |observed| < 0x1_0000_0000_0000_0000 && j < |bounds|
    ensures var samples := SeriesSamples(name, labelNames, h, bounds, format);
            |samples| == |bounds| + 3 &&
            samples[j] == Sample(name + "_bucket", Labels(labelNames + ["le"], h.labelValues + [format(bounds[j])]),
                                 format(CountAtMost(observed, bounds[j]) as real))
  {
    BucketShowsCount(name, labelNames, h, bounds, observed, format, j);
  }

  // The +Inf bucket, which closes the buckets, shows the same as _count: the number of values; between
  // them _sum shows their sum.
  lemma InfBucketShowsCount(name: string, labelNames: seq<string>, h: HistogramState, bounds: seq<real>,
                            observed: seq<real>, format: real -> string)
    requires |labelNames| == |h.labelValues| && Counts(h, bounds, observed) && |observed| < 0x1_0000_0000_0000_0000
    ensures var samples, n := SeriesSamples(name, labelNames, h, bounds, format), |bounds|;
            && |samples| == n + 3
            && samples[n] == Sample(name + "_bucket", Labels(labelNames + ["le"], h.labelValues + ["+Inf"]), format(|observed| as real))
            && samples[n + 1] == Sample(name + "_sum", Labels(labelNames, h.labelValues), format(Sum(observed)))
            && samples[n + 2] == Sample(name + "_count", Labels(labelNames, h.labelValues), format(|observed| as real))
  {
    BucketCount(name, labelNames, h, bounds, format);
    var summary := SummarySamples(name, labelNames, h, format);
    var samples := SeriesSamples(name, labelNames, h, bounds, format);
    assert samples[|bounds|] == summary[0] && samples[|bounds| + 1] == summary[1] && samples[|bounds| + 2] == summary[2];
  }

  lemma BucketCount(name: string, labelNames: seq<string>, h: HistogramState, bounds: seq<real>, format: real -> string)
    requires |labelNames| == |h.labelValues| && |h.buckets| == |bounds|
    ensures |BucketSamples(name, labelNames, h, bounds, 0, format)| == |bounds|
  {
    if bounds != [] {
      BucketSamplesAt(name, labelNames, h, bounds, 0, format, 0);
    }
  }

  lemma BucketShowsCount(name: string, labelNames: seq<string>, h: HistogramState, bounds: seq<real>,
                         observed: seq<real>, format: real -> string, j: nat)
    requires |labelNames| == |h.labelValues| && Counts(h, bounds, observed) && |observed| < 0x1_0000_0000_0000_0000 && j < |bounds|
    ensures |BucketSamples(name, labelNames, h, bounds, 0, format)| == |bounds|
    ensures BucketSamples(name, labelNames, h, bounds, 0, format)[j] ==
            BucketSample(name, labelNames, h, format(bounds[j]), CountAtMost(observed, bounds[j]), format)
  {
    BucketSamplesAt(name, labelNames, h, bounds, 0, format, j);
    CountAtMostMonotone(observed, bounds[j], bounds[j]);
  }

  predicate AllOK(samples: seq<Sample>) {
    forall i :: 0 <= i < |samples| ==> SampleOK(samples[i])
  }

  lemma {:induction false} BucketSamplesOK(name: string, labelNames: seq<string>, h: HistogramState, bounds: seq<real>,
                                           i: nat, format: real -> string)
    requires |labelNames| == |h.labelValues| && |h.buckets| == |bounds| && i <= |bounds| && Printable(name, labelNames, format)
    ensures AllOK(BucketSamples(name, labelNames, h, bounds, i, format))
    decreases |bounds| - i
  {
    if i < |bounds| {
      BucketSamplesOK(name, labelNames, h, bounds, i + 1, format);
    }
  }

  lemma SeriesSamplesOK(name: string, labelNames: seq<string>, h: HistogramState, bounds: seq<real>, format: real -> string)
    requires |labelNames| == |h.labelValues| && |h.buckets| == |bounds| && Printable(name, labelNames, format)
    ensures AllOK(SeriesSamples(name, labelNames, h, bounds, format))
  {
    BucketSamplesOK(name, labelNames, h, bounds, 0, format);
    SummarySamplesOK(name, labelNames, h, format);
    AllOKAppend(BucketSamples(name, labelNames, h, bounds, 0, format), SummarySamples(name, labelNames, h, format));
  }

  lemma SummarySamplesOK(name: string, labelNames: seq<string>, h: HistogramState, format: real -> string)
    requires |labelNames| == |h.labelValues| && Printable(name, labelNames, format)
    ensures AllOK(SummarySamples(name, labelNames, h, format))
  {
  }

  lemma AllOKAppend(a: seq<Sample>, b: seq<Sample>)
    requires AllOK(a) && AllOK(b)
    ensures AllOK(a + b)
  {
  }

  lemma {:induction false} HistogramSamplesOK(name: string, labelNames: seq<string>, series: map<string, HistogramState>,
                                              bounds: seq<real>, order: seq<string>, format: real -> string)
    requires HistogramOK(labelNames, bounds, series) && (forall k :: k in order ==> k in series)
    requires Printable(name, labelNames, format)
    ensures AllOK(HistogramSamples(name, labelNames, series, bounds, order, format))
    decreases |order|
  {
    if order != [] {
      SeriesSamplesOK(name, labelNames, series[order[0]], bounds, format);
      HistogramSamplesOK(name, labelNames, series, bounds, order[1..], format);
      AllOKAppend(SeriesSamples(name, labelNames, series[order[0]], bounds, format),
                  HistogramSamples(name, labelNames, series, bounds, order[1..], format));
    }
  }

  lemma {:induction false} HistogramHasSeries(name: string, labelNames: seq<string>, series: map<string, HistogramState>,
                                              bounds: seq<real>, order: seq<string>, format: real -> string, key: string)
    returns (before: seq<Sample>, after: seq<Sample>)
    requires HistogramOK(labelNames, bounds, series) && (forall k :: k in order ==> k in series) && key in order
    ensures HistogramSamples(name, labelNames, series, bounds, order, format) ==
            before + SeriesSamples(name, labelNames, series[key], bounds, format) + after
    decreases |order|
  {
    var one, rest := SeriesSamples(name, labelNames, series[order[0]], bounds, format),
                     HistogramSamples(name, labelNames, series, bounds, order[1..], format);
    if order[0] == key {
      before, after := [], rest;
      assert [] + one == one;
    } else {
      var b, a := HistogramHasSeries(name, labelNames, series, bounds, order[1..], format, key);
      before, after := one + b, a;
    }
  }

  // Parsing the text of a histogram gives the samples of every series back.
  lemma HistogramReadsBack(name: string, help: string, labelNames: seq<string>, series: map<string, HistogramState>,
                           bounds: seq<real>, order: seq<string>, format: real -> string, key: string)
    returns (before: seq<Sample>, after: seq<Sample>)
    requires HistogramOK(labelNames, bounds, series) && Lists(order, series.Keys) && key in series
    requires Printable(name, labelNames, format)
    ensures var f := Family(name, help, "histogram", HistogramSamples(name, labelNames, series, bounds, order, format));
            && ParseFamilies(FamilyText(f)) == Done([f], [])
            && f.samples == before + SeriesSamples(name, labelNames, series[key], bounds, format) + after
  {
    HistogramSamplesOK(name, labelNames, series, bounds, order, format);
    FamilyReadsBack(Family(name, help, "histogram", HistogramSamples(name, labelNames, series, bounds, order, format)));
    before, after := HistogramHasSeries(name, labelNames, series, bounds, order, format, key);
  }
}
